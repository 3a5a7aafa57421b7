/** What every reducer state reached without an error satisfies. */
module ReducerInvariant {
  // The block tables agree with the block order, each signature seals what it stands for, and the events emitted
  // so far are an accepted stream that assembles to exactly the blocks held.

  import opened Wrappers
  import opened Utf8
  import opened MapSums
  import opened JsonValues
  import opened MessageStream
  import opened ThinkingSignature
  import opened ToolNames
  import opened Reducer

  // ---------- Tables and order ----------

  datatype Body =
    | TextBody(text: string)
    | ReasoningBody(text: string, signature: Option<string>)
    | ToolBody(callId: string, name: string, arguments: string)

  datatype Slot = Slot(index: nat, closed: bool, body: Body)

  /** The started block held under a key, whichever table it is in. A tool registered but not started is not one. */
  function Lookup(s: State, key: BlockKey): Option<Slot> {
    match key
    case TextKey(k) =>
      if k in s.texts then Some(Slot(s.texts[k].index, s.texts[k].closed, TextBody(s.texts[k].text))) else None
    case ReasoningKey(k) =>
      if k in s.reasoning then
        var r := s.reasoning[k];
        Some(Slot(r.index, r.closed, ReasoningBody(r.text, r.signature)))
      else None
    case ToolKey(k) =>
      if k in s.tools && s.tools[k].index.Some? then
        var t := s.tools[k];
        Some(Slot(t.index.value, t.closed, ToolBody(t.callId, t.name, t.arguments)))
      else None
  }

  /** The i-th block is held under its key, remembers its index, and is closed unless it is the active one. */
  ghost predicate Backed(s: State, i: nat)
    requires i < |s.blockOrder|
  {
    var slot := Lookup(s, s.blockOrder[i]);
    slot.Some? && slot.value.index == i && (slot.value.closed <==> s.active != Some(s.blockOrder[i]))
  }

  ghost predicate Listed(s: State, key: BlockKey) {
    var slot := Lookup(s, key);
    slot.Some? ==> slot.value.index < |s.blockOrder| && s.blockOrder[slot.value.index] == key
  }

  ghost predicate Ordered(s: State) {
    && s.nextIndex == |s.blockOrder|
    && (s.active.Some? ==> s.blockOrder != [] && s.active.value == s.blockOrder[|s.blockOrder| - 1])
    && (forall i: nat | i < |s.blockOrder| :: Backed(s, i))
    && (forall key :: Listed(s, key))
  }

  /** Tools registered but not started hold nothing yet. */
  ghost predicate Unstarted(s: State) {
    forall k | k in s.tools && s.tools[k].index.None? :: !s.tools[k].closed && s.tools[k].arguments == ""
  }

  // ---------- Ciphertext and signatures ----------

  /** A reasoning block holds text, then ciphertext waiting to be sealed, then the signature sealing it. */
  ghost predicate Stage(c: Context, s: State, k: string)
    requires k in s.reasoning
  {
    var r := s.reasoning[k];
    if r.closed then
      && r.done && r.encrypted.None? && r.signature.Some? && k in s.seals
      && c.signer.Seal(c.authEpoch, c.accountHash, k, s.seals[k].toolId, s.seals[k].encrypted) == Ok(r.signature.value)
    else
      && r.signature.None? && k !in s.seals
      && (r.done <==> r.encrypted.Some?)
      && (r.done <==> s.pending == Some(k))
  }

  ghost predicate Ciphered(c: Context, s: State) {
    && (forall k | k in s.reasoning :: Stage(c, s, k))
    && (s.pending.Some? ==> s.pending.value in s.reasoning && s.active == Some(ReasoningKey(s.pending.value)))
    && (forall k | k in s.seals :: k in s.reasoning && s.reasoning[k].closed)
  }

  // ---------- Claims ----------

  ghost predicate Claimed(s: State, id: string, kind: string) {
    id in s.outputItems && s.outputItems[id] == kind
  }

  ghost predicate ToolNamed(c: Context, s: State, k: string)
    requires k in s.tools
  {
    var t := s.tools[k];
    && Claimed(s, k, "function_call")
    && t.callId in s.callIds && s.callIds[t.callId] == k
    && t.callId != "" && ByteLen(t.callId) <= MAX_ID_BYTES
    && t.name != "" && ByteLen(t.name) <= MAX_ID_BYTES
    && ByteLen(t.arguments) <= MAX_TOOL_ARGUMENT_BYTES
    && (t.closed ==> t.arguments != "" && c.codec.parse(t.arguments).Some? && c.codec.parse(t.arguments).value.JObject?)
  }

  ghost predicate Identified(c: Context, s: State) {
    && |s.outputItems| <= MAX_OUTPUT_ITEMS
    && (forall k | k in s.texts :: Claimed(s, k, "message"))
    && (forall k | k in s.reasoning :: Claimed(s, k, "reasoning"))
    && (forall k | k in s.tools :: ToolNamed(c, s, k))
  }

  // ---------- Byte budgets ----------

  function TextStored(k: string, t: TextState): nat { ByteLen(k) + TEXT_OVERHEAD + ByteLen(t.text) }
  function TextJson(k: string, t: TextState): nat { EscapedJsonLen(k) + TEXT_OVERHEAD + EscapedJsonLen(t.text) }
  function TextBytes(k: string, t: TextState): nat { ByteLen(t.text) }

  function LenOf(s: Option<string>): nat { if s.Some? then ByteLen(s.value) else 0 }
  function JsonLenOf(s: Option<string>): nat { if s.Some? then EscapedJsonLen(s.value) else 0 }

  function ReasoningStored(k: string, r: ReasoningState): nat {
    ByteLen(k) + REASONING_OVERHEAD + ByteLen(r.text) + LenOf(r.encrypted) + LenOf(r.signature)
  }
  function ReasoningJson(k: string, r: ReasoningState): nat {
    EscapedJsonLen(k) + REASONING_OVERHEAD + EscapedJsonLen(r.text) + JsonLenOf(r.signature)
  }
  function ReasoningBytes(k: string, r: ReasoningState): nat { ByteLen(r.text) + LenOf(r.encrypted) }
  function SealBytes(k: string, seal: Seal): nat { ByteLen(seal.encrypted) }

  function ToolStored(k: string, t: ToolState): nat {
    ByteLen(k) + TOOL_OVERHEAD + ByteLen(t.callId) + ByteLen(t.name) + ByteLen(t.arguments)
  }
  function ToolJson(k: string, t: ToolState): nat {
    EscapedJsonLen(k) + TOOL_OVERHEAD + EscapedJsonLen(t.callId) + EscapedJsonLen(t.name) + ByteLen(t.arguments)
  }

  ghost function Stored(s: State): nat {
    Sum(s.texts, TextStored) + Sum(s.reasoning, ReasoningStored) + Sum(s.tools, ToolStored)
  }

  ghost function Estimated(s: State): nat {
    BASE_ESTIMATE + Sum(s.texts, TextJson) + Sum(s.reasoning, ReasoningJson) + Sum(s.tools, ToolJson)
  }

  /**
    The counters are the exact sizes of what is held, and within their limits. Ciphertext leaves the stored
    total when it is sealed, but stays counted as reasoning for good.
   */
  ghost predicate Balanced(s: State) {
    && s.stored == Stored(s) <= MAX_NONSTREAM_BYTES
    && s.estimated == Estimated(s) <= MAX_NONSTREAM_BYTES
    && s.totalText == Sum(s.texts, TextBytes) <= MAX_TEXT_BYTES
    && s.totalReasoning == Sum(s.reasoning, ReasoningBytes) + Sum(s.seals, SealBytes) <= MAX_REASONING_BYTES
  }

  // ---------- The stream ----------

  /**
    An assembled block is the held one, read back from its deltas. Only a closed tool block may hold the empty
    object where the stream carried nothing.
   */
  ghost predicate Shows(b: Block, closed: bool, body: Body) {
    match body
    case TextBody(text) => b.head == TextHead("") && TextOf(b.deltas) == text
    case ReasoningBody(text, signature) =>
      && b.head == ThinkingHead("", "")
      && ThinkingOf(b.deltas) == text
      && SignatureOf(b.deltas) == (if signature.Some? then signature.value else "")
    case ToolBody(callId, name, arguments) =>
      && b.head == ToolHead(callId, name)
      && (JsonOf(b.deltas) == arguments || (closed && JsonOf(b.deltas) == "" && arguments == "{}"))
  }

  ghost predicate ShowsAt(m: Message, s: State, i: nat)
    requires i < |m.blocks| == |s.blockOrder|
  {
    var slot := Lookup(s, s.blockOrder[i]);
    slot.Some? && Shows(m.blocks[i], slot.value.closed, slot.value.body)
  }

  ghost predicate Mirrors(c: Context, s: State, l: Life, m: Message) {
    && (s.created <==> s.started)
    && (!s.started ==> l == Initial && m == EmptyMessage && s.blockOrder == [] && !s.completed)
    && (s.started ==>
      && m.id == s.messageId && m.model == c.model
      && l.phase == (if s.completed then Complete else Streaming)
      && l.open == (if s.active.Some? then Some(|s.blockOrder| - 1) else None)
      && l.next == |s.blockOrder| - (if s.active.Some? then 1 else 0))
    && |m.blocks| == |s.blockOrder|
    && (forall i: nat | i < |m.blocks| :: ShowsAt(m, s, i))
  }

  ghost predicate Inv(c: Context, s: State, l: Life, m: Message) {
    && Ordered(s)
    && Unstarted(s)
    && Ciphered(c, s)
    && Identified(c, s)
    && Balanced(s)
    && Mirrors(c, s, l, m)
  }

  /** What an operation has to keep: its events are accepted next, and the invariant holds after them. */
  ghost predicate Keeps(c: Context, e: Emission, l: Life, m: Message) {
    && Run(l, e.out).Some?
    && Inv(c, e.state, Run(l, e.out).value, Assemble(m, e.out))
  }

  lemma One(l: Life, m: Message, e: Event)
    ensures Run(l, [e]) == Advance(l, e)
    ensures Assemble(m, [e]) == Observe(m, e)
  {
    assert [] + [e] == [e];
    RunSnoc(l, [], e);
    AssembleSnoc(m, [], e);
  }

  lemma Two(l: Life, m: Message, e: Event, f: Event)
    requires Advance(l, e).Some?
    ensures Run(l, [e, f]) == Advance(Advance(l, e).value, f)
    ensures Assemble(m, [e, f]) == Observe(Observe(m, e), f)
  {
    One(l, m, e);
    assert [e] + [f] == [e, f];
    RunSnoc(l, [e], f);
    AssembleSnoc(m, [e], f);
  }

  lemma Then(l: Life, m: Message, a: seq<Event>, b: seq<Event>)
    requires Run(l, a).Some?
    ensures Run(l, a + b) == Run(Run(l, a).value, b)
    ensures Assemble(m, a + b) == Assemble(Assemble(m, a), b)
  {
    RunConcat(l, a, b);
    AssembleConcat(m, a, b);
  }

  lemma BlockClaimed(c: Context, s: State, i: nat)
    requires Ordered(s) && Identified(c, s) && i < |s.blockOrder|
    ensures s.blockOrder[i].id in s.outputItems
    ensures
      s.outputItems[s.blockOrder[i].id]
      == match s.blockOrder[i] case TextKey(_) => "message" case ReasoningKey(_) => "reasoning" case ToolKey(_) => "function_call"
  {
    assert Backed(s, i);
    match s.blockOrder[i]
    case TextKey(k) =>
    case ReasoningKey(k) =>
    case ToolKey(k) => assert ToolNamed(c, s, k);
  }

  lemma DistinctIds(c: Context, s: State, i: nat, j: nat)
    requires Ordered(s) && Identified(c, s) && i < |s.blockOrder| && j < |s.blockOrder|
    requires s.blockOrder[i].id == s.blockOrder[j].id
    ensures i == j
  {
    BlockClaimed(c, s, i);
    BlockClaimed(c, s, j);
    assert s.blockOrder[i] == s.blockOrder[j];
    assert Backed(s, i) && Backed(s, j);
  }

  ghost function IdsOf(order: seq<BlockKey>): set<string> {
    set i | 0 <= i < |order| :: order[i].id
  }

  lemma {:induction false} DistinctCount(order: seq<BlockKey>)
    requires forall i, j :: 0 <= i < j < |order| ==> order[i].id != order[j].id
    ensures |IdsOf(order)| == |order|
  {
    if order == [] {
      assert IdsOf(order) == {};
    } else {
      var short, last := order[..|order| - 1], order[|order| - 1].id;
      DistinctCount(short);
      assert forall i | 0 <= i < |short| :: short[i].id != last;
      assert IdsOf(order) == IdsOf(short) + {last};
    }
  }

  /** Blocks come from distinct claimed items, so there are never more of them than items. */
  lemma BlocksBounded(c: Context, s: State)
    requires Ordered(s) && Identified(c, s)
    ensures |s.blockOrder| <= MAX_OUTPUT_ITEMS
  {
    forall i, j | 0 <= i < j < |s.blockOrder|
      ensures s.blockOrder[i].id != s.blockOrder[j].id
    {
      if s.blockOrder[i].id == s.blockOrder[j].id {
        DistinctIds(c, s, i, j);
      }
    }
    DistinctCount(s.blockOrder);
    forall i: nat | i < |s.blockOrder|
      ensures s.blockOrder[i].id in s.outputItems.Keys
    {
      BlockClaimed(c, s, i);
    }
    SubsetSize(IdsOf(s.blockOrder), s.outputItems.Keys);
  }
}
