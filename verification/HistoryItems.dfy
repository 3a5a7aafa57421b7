/** What a message of the history adds to the request. */
module HistoryItems {
  // Which messages are accepted, and that each block becomes one item or one part of an item, in order.

  import opened Wrappers
  import Sequences
  import opened Utf8
  import opened JsonValues
  import opened ProtocolErrors
  import opened ThinkingSignature
  import opened ToolNames
  import Reducer
  import opened HistoryTranslation

  // ---------- What the blocks say ----------

  /** A part of a message item by itself, or an item of another kind. */
  datatype Unit = Spoken(role: Role, part: Part) | Whole(item: InputItem)

  function SpokenParts(role: Role, parts: seq<Part>): seq<Unit> {
    seq(|parts|, i requires 0 <= i < |parts| => Spoken(role, parts[i]))
  }

  function UnitsOf(item: InputItem): seq<Unit> {
    match item case MessageItem(role, parts) => SpokenParts(role, parts) case _ => [Whole(item)]
  }

  function Units(items: seq<InputItem>): seq<Unit> {
    if items == [] then [] else Units(items[..|items| - 1]) + UnitsOf(items[|items| - 1])
  }

  /** The id of the tool use right after block i, which is what its signature has to be made for. */
  function NextTool(blocks: seq<HistoryBlock>, i: nat): Option<string> {
    if i + 1 < |blocks| && blocks[i + 1].ToolUseBlock? then blocks[i + 1].id else None
  }

  function Opened(c: Context, blocks: seq<HistoryBlock>, i: nat): Result<VerifiedReasoning, ProtocolError>
    requires i < |blocks| && blocks[i].ThinkingBlock? && blocks[i].signature.Some?
  {
    c.signer.Open(blocks[i].signature.value, c.authEpoch, c.accountHash, NextTool(blocks, i))
  }

  function InputOf(input: Option<Json>): Json {
    if input.Some? then input.value else JObject([])
  }

  predicate Short(s: Option<string>) {
    s.Some? && s.value != "" && ByteLen(s.value) <= 512
  }

  /** Block i may stand in a message of that role, after the calls and results known before. */
  predicate Admissible(c: Context, t: Turn, role: Role, blocks: seq<HistoryBlock>, i: nat)
    requires i < |blocks|
  {
    match blocks[i]
    case TextBlock(_) => true
    case ImageBlock(url) => role.User? && url.Some?
    case ToolResultBlock(id, _, _) =>
      && role.User? && Short(id) && id.value in t.calls && id.value !in t.results
      && forall j | 0 <= j < i && blocks[j].ToolResultBlock? :: blocks[j].id != id
    case ToolUseBlock(id, name, input) =>
      && role.Assistant? && Short(id) && Short(name) && id.value !in t.calls
      && (forall j | 0 <= j < i && blocks[j].ToolUseBlock? :: blocks[j].id != id)
      && InputOf(input).JObject? && ByteLen(c.codec.write(InputOf(input))) <= Reducer.MAX_TOOL_ARGUMENT_BYTES
    case ThinkingBlock(_, signature) => role.Assistant? && signature.Some? && Opened(c, blocks, i).Ok?
    case UnsupportedBlock => false
  }

  /** What block i says. */
  function Says(c: Context, t: Turn, role: Role, blocks: seq<HistoryBlock>, i: nat): Unit
    requires i < |blocks| && Admissible(c, t, role, blocks, i)
  {
    match blocks[i]
    case TextBlock(text) => Spoken(role, if role.User? then InputText(text) else OutputText(text))
    case ImageBlock(url) => Spoken(role, InputImage(url.value))
    case ToolResultBlock(id, output, _) => Whole(FunctionOutput(id.value, output))
    case ToolUseBlock(id, name, input) =>
      Whole(FunctionCall(id.value, c.toolNames.CodexName(name.value), c.codec.write(InputOf(input))))
    case ThinkingBlock(thinking, _) =>
      Whole(ReasoningItem(Opened(c, blocks, i).value.itemId, thinking, Opened(c, blocks, i).value.content))
  }

  ghost predicate AllAdmissible(c: Context, t: Turn, role: Role, blocks: seq<HistoryBlock>, n: nat)
    requires n <= |blocks|
  {
    forall i: nat | i < n :: Admissible(c, t, role, blocks, i)
  }

  ghost function AllSay(c: Context, t: Turn, role: Role, blocks: seq<HistoryBlock>, n: nat): seq<Unit>
    requires n <= |blocks| && AllAdmissible(c, t, role, blocks, n)
  {
    seq(n, i requires 0 <= i < n => Says(c, t, role, blocks, i))
  }

  /** Bytes of text: of texts, and of the results' texts. */
  function TextCost(blocks: seq<HistoryBlock>, n: nat): nat
    requires n <= |blocks|
  {
    if n == 0 then 0
    else
      TextCost(blocks, n - 1)
      + (match blocks[n - 1]
         case TextBlock(text) => ByteLen(text)
         case ToolResultBlock(_, _, bytes) => bytes
         case _ => 0)
  }

  /** Bytes of reasoning: of summaries, and of what their signatures carry. */
  function ReasoningCost(c: Context, blocks: seq<HistoryBlock>, n: nat): nat
    requires n <= |blocks|
  {
    if n == 0 then 0
    else
      ReasoningCost(c, blocks, n - 1)
      + (match blocks[n - 1]
         case ThinkingBlock(thinking, signature) =>
           ByteLen(thinking)
           + (if signature.Some? && Opened(c, blocks, n - 1).Ok? then ByteLen(Opened(c, blocks, n - 1).value.content) else 0)
         case _ => 0)
  }

  ghost predicate Affordable(c: Context, t: Turn, blocks: seq<HistoryBlock>, n: nat)
    requires n <= |blocks|
  {
    && t.textBytes + TextCost(blocks, n) <= Reducer.MAX_TEXT_BYTES
    && t.reasoningBytes + ReasoningCost(c, blocks, n) <= Reducer.MAX_REASONING_BYTES
  }

  ghost function UsedIds(blocks: seq<HistoryBlock>, n: nat): set<string>
    requires n <= |blocks|
  {
    set i | 0 <= i < n && blocks[i].ToolUseBlock? && blocks[i].id.Some? :: blocks[i].id.value
  }

  ghost function AnsweredIds(blocks: seq<HistoryBlock>, n: nat): set<string>
    requires n <= |blocks|
  {
    set i | 0 <= i < n && blocks[i].ToolResultBlock? && blocks[i].id.Some? :: blocks[i].id.value
  }

  // ---------- Items ----------

  lemma UnitsSnoc(items: seq<InputItem>, item: InputItem)
    ensures Units(items + [item]) == Units(items) + UnitsOf(item)
  {
    Sequences.Snoc(items, item);
  }

  /** Two message items stand side by side. */
  ghost predicate Split(items: seq<InputItem>) {
    exists i | 0 <= i < |items| - 1 :: items[i].MessageItem? && items[i + 1].MessageItem?
  }

  /** What was added so far, with the parts still to be made an item: one unit for each block. */
  ghost predicate Adds(c: Context, t: Turn, role: Role, blocks: seq<HistoryBlock>, n: nat, now: Turn, more: seq<InputItem>)
    requires n <= |blocks| && AllAdmissible(c, t, role, blocks, n)
  {
    && now.input == t.input + more
    && Units(more) + SpokenParts(role, now.ordinary) == AllSay(c, t, role, blocks, n)
    && !Split(more) && (forall i | 0 <= i < |more| && more[i].MessageItem? :: more[i].role == role && more[i].parts != [])
    && (now.ordinary != [] && more != [] ==> !more[|more| - 1].MessageItem?)
  }

  /** The totals and the ids known so far. */
  ghost predicate Counts(c: Context, t: Turn, blocks: seq<HistoryBlock>, n: nat, now: Turn)
    requires n <= |blocks|
  {
    && now.textBytes == t.textBytes + TextCost(blocks, n)
    && now.reasoningBytes == t.reasoningBytes + ReasoningCost(c, blocks, n)
    && now.calls == t.calls + UsedIds(blocks, n) && now.results == t.results + AnsweredIds(blocks, n)
  }

  lemma SpokenSnoc(role: Role, parts: seq<Part>, part: Part)
    ensures SpokenParts(role, parts + [part]) == SpokenParts(role, parts) + [Spoken(role, part)]
  {
  }

  lemma AllSaySnoc(c: Context, t: Turn, role: Role, blocks: seq<HistoryBlock>, n: nat)
    requires n < |blocks| && AllAdmissible(c, t, role, blocks, n + 1)
    ensures AllSay(c, t, role, blocks, n + 1) == AllSay(c, t, role, blocks, n) + [Says(c, t, role, blocks, n)]
  {
  }

  /** A part is kept for the message item that is being gathered. */
  lemma PartAdds(c: Context, t: Turn, role: Role, blocks: seq<HistoryBlock>, n: nat, now: Turn, more: seq<InputItem>,
                 part: Part, next: Turn) returns (more': seq<InputItem>)
    requires n < |blocks| && AllAdmissible(c, t, role, blocks, n + 1) && Adds(c, t, role, blocks, n, now, more)
    requires Says(c, t, role, blocks, n) == Spoken(role, part)
    requires next.input == now.input && next.ordinary == now.ordinary + [part]
    requires now.ordinary != [] || more == [] || !more[|more| - 1].MessageItem?
    ensures Adds(c, t, role, blocks, n + 1, next, more')
  {
    more' := more;
    SpokenSnoc(role, now.ordinary, part);
    AllSaySnoc(c, t, role, blocks, n);
    Sequences.Associate(Units(more), SpokenParts(role, now.ordinary), [Spoken(role, part)]);
  }

  lemma FlushAdds(c: Context, t: Turn, role: Role, blocks: seq<HistoryBlock>, n: nat, now: Turn, more: seq<InputItem>)
    returns (more': seq<InputItem>)
    requires n <= |blocks| && AllAdmissible(c, t, role, blocks, n) && Adds(c, t, role, blocks, n, now, more)
    ensures Adds(c, t, role, blocks, n, Flush(now, role), more') && Flush(now, role).ordinary == []
    ensures Units(more') == AllSay(c, t, role, blocks, n)
  {
    more' := more;
    Sequences.ConcatEmpty(Units(more));
    if now.ordinary != [] {
      more' := more + [MessageItem(role, now.ordinary)];
      UnitsSnoc(more, MessageItem(role, now.ordinary));
      Sequences.ConcatEmpty(Units(more'));
      Sequences.Associate(t.input, more, [MessageItem(role, now.ordinary)]);
      NoSplit(more, MessageItem(role, now.ordinary));
    }
  }

  lemma NoSplit(more: seq<InputItem>, item: InputItem)
    requires !Split(more) && (item.MessageItem? && more != [] ==> !more[|more| - 1].MessageItem?)
    ensures !Split(more + [item])
  {
    var all := more + [item];
    forall i | 0 <= i < |all| - 1 ensures !(all[i].MessageItem? && all[i + 1].MessageItem?) {
      if i < |more| - 1 {
        assert !(more[i].MessageItem? && more[i + 1].MessageItem?);
      }
    }
  }

  /** An item of another kind ends the message item before it. */
  lemma WholeAdds(c: Context, t: Turn, role: Role, blocks: seq<HistoryBlock>, n: nat, now: Turn, more: seq<InputItem>,
                  item: InputItem, next: Turn) returns (more': seq<InputItem>)
    requires n < |blocks| && AllAdmissible(c, t, role, blocks, n + 1) && Adds(c, t, role, blocks, n, now, more)
    requires Says(c, t, role, blocks, n) == Whole(item) && !item.MessageItem?
    requires next.input == Flush(now, role).input + [item] && next.ordinary == []
    ensures Adds(c, t, role, blocks, n + 1, next, more')
    ensures more' != [] && !more'[|more'| - 1].MessageItem?
  {
    var flushed := FlushAdds(c, t, role, blocks, n, now, more);
    more' := flushed + [item];
    UnitsSnoc(flushed, item);
    AllSaySnoc(c, t, role, blocks, n);
    Sequences.ConcatEmpty(Units(more'));
    Sequences.Associate(t.input, flushed, [item]);
    NoSplit(flushed, item);
  }

  // ---------- One block ----------

  predicate Ready(more: seq<InputItem>) {
    more == [] || !more[|more| - 1].MessageItem?
  }

  /** Midway through a message. */
  ghost predicate Translated(
    c: Context, t: Turn, role: Role, blocks: seq<HistoryBlock>, n: nat, now: Turn, more: seq<InputItem>)
  {
    && n <= |blocks| && AllAdmissible(c, t, role, blocks, n) && Affordable(c, t, blocks, n)
    && Adds(c, t, role, blocks, n, now, more) && Ready(more) && Counts(c, t, blocks, n, now)
  }

  lemma UsedSnoc(blocks: seq<HistoryBlock>, n: nat)
    requires n < |blocks|
    ensures
      UsedIds(blocks, n + 1)
      == UsedIds(blocks, n) + (if blocks[n].ToolUseBlock? && blocks[n].id.Some? then {blocks[n].id.value} else {})
    ensures
      AnsweredIds(blocks, n + 1)
      == AnsweredIds(blocks, n) + (if blocks[n].ToolResultBlock? && blocks[n].id.Some? then {blocks[n].id.value} else {})
  {
  }

  /** A block that cannot stand there, or costs too much, is refused; any other is translated. */
  lemma TextSteps(c: Context, t: Turn, role: Role, blocks: seq<HistoryBlock>, n: nat, now: Turn, more: seq<InputItem>)
    returns (more': seq<InputItem>)
    requires Translated(c, t, role, blocks, n, now, more) && n < |blocks| && blocks[n].TextBlock?
    ensures
      var r := TranslateBlock(c, now, role, blocks, n);
      && (r.Ok? <==> Affordable(c, t, blocks, n + 1))
      && (r.Ok? ==> Translated(c, t, role, blocks, n + 1, r.value, more'))
  {
    more' := more;
    UsedSnoc(blocks, n);
    var r := TranslateBlock(c, now, role, blocks, n);
    if r.Ok? {
      assert AllAdmissible(c, t, role, blocks, n + 1);
      more' := PartAdds(c, t, role, blocks, n, now, more, TextPart(role, blocks[n].text), r.value);
    }
  }

  lemma ImageSteps(c: Context, t: Turn, role: Role, blocks: seq<HistoryBlock>, n: nat, now: Turn, more: seq<InputItem>)
    returns (more': seq<InputItem>)
    requires Translated(c, t, role, blocks, n, now, more) && n < |blocks| && blocks[n].ImageBlock?
    ensures
      var r := TranslateBlock(c, now, role, blocks, n);
      && (r.Ok? <==> Admissible(c, t, role, blocks, n)) && Affordable(c, t, blocks, n + 1)
      && (r.Ok? ==> Translated(c, t, role, blocks, n + 1, r.value, more'))
  {
    more' := more;
    UsedSnoc(blocks, n);
    var r := TranslateBlock(c, now, role, blocks, n);
    if r.Ok? {
      assert AllAdmissible(c, t, role, blocks, n + 1);
      more' := PartAdds(c, t, role, blocks, n, now, more, InputImage(blocks[n].url.value), r.value);
    }
  }

  lemma ResultSteps(c: Context, t: Turn, role: Role, blocks: seq<HistoryBlock>, n: nat, now: Turn, more: seq<InputItem>)
    returns (more': seq<InputItem>)
    requires Translated(c, t, role, blocks, n, now, more) && n < |blocks| && blocks[n].ToolResultBlock?
    requires role.User? ==> now.calls == t.calls
    ensures
      var r := TranslateBlock(c, now, role, blocks, n);
      && (r.Ok? <==> Admissible(c, t, role, blocks, n) && Affordable(c, t, blocks, n + 1))
      && (r.Ok? ==> Translated(c, t, role, blocks, n + 1, r.value, more'))
  {
    more' := more;
    UsedSnoc(blocks, n);
    if blocks[n].id.Some? {
      NotAnswered(c, t, role, blocks, n);
    }
    var r := TranslateBlock(c, now, role, blocks, n);
    if r.Ok? {
      assert AllAdmissible(c, t, role, blocks, n + 1);
      var item := FunctionOutput(blocks[n].id.value, blocks[n].output);
      assert Says(c, t, role, blocks, n) == Whole(item);
      assert r.value.ordinary == [];
      assert r.value.input == Flush(now, role).input + [item];
      more' := WholeAdds(c, t, role, blocks, n, now, more, item, r.value);
    }
  }

  lemma NotAnswered(c: Context, t: Turn, role: Role, blocks: seq<HistoryBlock>, n: nat)
    requires n < |blocks| && AllAdmissible(c, t, role, blocks, n) && blocks[n].ToolResultBlock? && blocks[n].id.Some?
    ensures
      blocks[n].id.value !in AnsweredIds(blocks, n)
      <==> forall j | 0 <= j < n && blocks[j].ToolResultBlock? :: blocks[j].id != blocks[n].id
  {
    forall j | 0 <= j < n && blocks[j].ToolResultBlock? ensures blocks[j].id.Some? {
      assert Admissible(c, t, role, blocks, j);
    }
  }

  lemma NotUsed(c: Context, t: Turn, role: Role, blocks: seq<HistoryBlock>, n: nat)
    requires n < |blocks| && AllAdmissible(c, t, role, blocks, n) && blocks[n].ToolUseBlock? && blocks[n].id.Some?
    ensures
      blocks[n].id.value !in UsedIds(blocks, n)
      <==> forall j | 0 <= j < n && blocks[j].ToolUseBlock? :: blocks[j].id != blocks[n].id
  {
    forall j | 0 <= j < n && blocks[j].ToolUseBlock? ensures blocks[j].id.Some? {
      assert Admissible(c, t, role, blocks, j);
    }
  }

  lemma UseSteps(c: Context, t: Turn, role: Role, blocks: seq<HistoryBlock>, n: nat, now: Turn, more: seq<InputItem>)
    returns (more': seq<InputItem>)
    requires Translated(c, t, role, blocks, n, now, more) && n < |blocks| && blocks[n].ToolUseBlock?
    ensures
      var r := TranslateBlock(c, now, role, blocks, n);
      && (r.Ok? <==> Admissible(c, t, role, blocks, n)) && Affordable(c, t, blocks, n + 1)
      && (r.Ok? ==> Translated(c, t, role, blocks, n + 1, r.value, more'))
  {
    more' := more;
    UsedSnoc(blocks, n);
    if blocks[n].id.Some? {
      NotUsed(c, t, role, blocks, n);
    }
    var r := TranslateBlock(c, now, role, blocks, n);
    if r.Ok? {
      assert AllAdmissible(c, t, role, blocks, n + 1);
      var item := FunctionCall(blocks[n].id.value, c.toolNames.CodexName(blocks[n].name.value), c.codec.write(InputOf(blocks[n].input)));
      more' := WholeAdds(c, t, role, blocks, n, now, more, item, r.value);
    }
  }

  /** Reasoning is counted first by its summary, then by what its signature carries. */
  lemma ThinkingCosts(c: Context, t: Turn, role: Role, blocks: seq<HistoryBlock>, n: nat, now: Turn)
    requires n < |blocks| && blocks[n].ThinkingBlock? && Counts(c, t, blocks, n, now) && Affordable(c, t, blocks, n)
    ensures
      var r := TranslateBlock(c, now, role, blocks, n);
      && (r.Ok? <==> Admissible(c, t, role, blocks, n) && Affordable(c, t, blocks, n + 1))
      && (r.Ok? ==>
        && var v := Opened(c, blocks, n).value;
        && r.value.input == Flush(now, role).input + [ReasoningItem(v.itemId, blocks[n].thinking, v.content)]
        && r.value.ordinary == [] && Counts(c, t, blocks, n + 1, r.value))
  {
    UsedSnoc(blocks, n);
    assert BoundTool(blocks, n) == NextTool(blocks, n);
  }

  lemma ThinkingSteps(c: Context, t: Turn, role: Role, blocks: seq<HistoryBlock>, n: nat, now: Turn, more: seq<InputItem>)
    returns (more': seq<InputItem>)
    requires Translated(c, t, role, blocks, n, now, more) && n < |blocks| && blocks[n].ThinkingBlock?
    ensures
      var r := TranslateBlock(c, now, role, blocks, n);
      && (r.Ok? <==> Admissible(c, t, role, blocks, n) && Affordable(c, t, blocks, n + 1))
      && (r.Ok? ==> Translated(c, t, role, blocks, n + 1, r.value, more'))
  {
    more' := more;
    ThinkingCosts(c, t, role, blocks, n, now);
    var r := TranslateBlock(c, now, role, blocks, n);
    if r.Ok? {
      assert AllAdmissible(c, t, role, blocks, n + 1);
      var v := Opened(c, blocks, n).value;
      more' := WholeAdds(c, t, role, blocks, n, now, more, ReasoningItem(v.itemId, blocks[n].thinking, v.content), r.value);
    }
  }

  lemma BlockSteps(c: Context, t: Turn, role: Role, blocks: seq<HistoryBlock>, n: nat, now: Turn, more: seq<InputItem>)
    returns (more': seq<InputItem>)
    requires Translated(c, t, role, blocks, n, now, more) && n < |blocks|
    ensures
      var r := TranslateBlock(c, now, role, blocks, n);
      && (r.Ok? <==> Admissible(c, t, role, blocks, n) && Affordable(c, t, blocks, n + 1))
      && (r.Ok? ==> Translated(c, t, role, blocks, n + 1, r.value, more'))
  {
    match blocks[n] {
      case TextBlock(_) => more' := TextSteps(c, t, role, blocks, n, now, more);
      case ImageBlock(_) => more' := ImageSteps(c, t, role, blocks, n, now, more);
      case ToolUseBlock(_, _, _) => more' := UseSteps(c, t, role, blocks, n, now, more);
      case ToolResultBlock(_, _, _) =>
        if role.User? {
          UsersUseNothing(c, t, role, blocks, n);
        }
        more' := ResultSteps(c, t, role, blocks, n, now, more);
      case ThinkingBlock(_, _) => more' := ThinkingSteps(c, t, role, blocks, n, now, more);
      case UnsupportedBlock => more' := more;
    }
  }

  lemma UsersUseNothing(c: Context, t: Turn, role: Role, blocks: seq<HistoryBlock>, n: nat)
    requires n <= |blocks| && AllAdmissible(c, t, role, blocks, n) && role.User?
    ensures UsedIds(blocks, n) == {}
  {
    forall i | 0 <= i < n ensures !blocks[i].ToolUseBlock? {
      assert Admissible(c, t, role, blocks, i);
    }
  }

  // ---------- The message ----------

  lemma {:induction false} BlocksAre(c: Context, t: Turn, role: Role, blocks: seq<HistoryBlock>, n: nat)
    returns (more: seq<InputItem>)
    requires t.ordinary == [] && Affordable(c, t, blocks, 0) && n <= |blocks|
    ensures TranslateBlocks(c, t, role, blocks, n).Ok? <==> AllAdmissible(c, t, role, blocks, n) && Affordable(c, t, blocks, n)
    ensures TranslateBlocks(c, t, role, blocks, n).Ok? ==>
      Translated(c, t, role, blocks, n, TranslateBlocks(c, t, role, blocks, n).value, more)
  {
    more := [];
    if n == 0 {
      Sequences.ConcatEmpty(t.input);
    } else {
      var before := BlocksAre(c, t, role, blocks, n - 1);
      LastAdmissible(c, t, role, blocks, n);
      LastAffordable(c, t, blocks, n);
      if TranslateBlocks(c, t, role, blocks, n - 1).Ok? {
        more := BlockSteps(c, t, role, blocks, n - 1, TranslateBlocks(c, t, role, blocks, n - 1).value, before);
      }
    }
  }

  lemma LastAffordable(c: Context, t: Turn, blocks: seq<HistoryBlock>, n: nat)
    requires 0 < n <= |blocks|
    ensures Affordable(c, t, blocks, n) ==> Affordable(c, t, blocks, n - 1)
  {
  }

  lemma LastAdmissible(c: Context, t: Turn, role: Role, blocks: seq<HistoryBlock>, n: nat)
    requires 0 < n <= |blocks|
    ensures
      AllAdmissible(c, t, role, blocks, n)
      <==> AllAdmissible(c, t, role, blocks, n - 1) && Admissible(c, t, role, blocks, n - 1)
  {
  }

  /**
    A message is accepted exactly when every block may stand where it does and the sizes fit. Then it adds one unit for
    each block, in order: a text or image as a part of a message item, a call, a result or opened reasoning as an item;
    neighbouring parts share an item. The ids and sizes are counted on.
   */
  lemma MessageAddsItsBlocks(c: Context, t: Turn, role: Role, blocks: seq<HistoryBlock>) returns (more: seq<InputItem>)
    requires t.ordinary == [] && Affordable(c, t, blocks, 0)
    ensures
      var n, r := |blocks|, TranslateContent(c, t, role, BlockList(blocks));
      && (r.Ok? <==> AllAdmissible(c, t, role, blocks, n) && Affordable(c, t, blocks, n))
      && (r.Ok? ==>
        && r.value.input == t.input + more && r.value.ordinary == []
        && Units(more) == AllSay(c, t, role, blocks, n) && !Split(more)
        && r.value.calls == t.calls + UsedIds(blocks, n) && r.value.results == t.results + AnsweredIds(blocks, n)
        && r.value.textBytes == t.textBytes + TextCost(blocks, n)
        && r.value.reasoningBytes == t.reasoningBytes + ReasoningCost(c, blocks, n))
  {
    var n := |blocks|;
    more := BlocksAre(c, t, role, blocks, n);
    if TranslateBlocks(c, t, role, blocks, n).Ok? {
      more := FlushAdds(c, t, role, blocks, n, TranslateBlocks(c, t, role, blocks, n).value, more);
    }
  }
}
