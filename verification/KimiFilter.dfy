/** The Kimi stream filter, specified on values, and the same filter over a whole answer. */
module KimiFilter {
  import opened Wrappers
  import opened Utf8
  import opened MessageStream

  const MAX_THINKING_BLOCK_BYTES: nat := 2 * 1024 * 1024
  const MAX_THINKING_BYTES: nat := 1024 * 1024
  const MAX_SIGNATURE_BYTES: nat := 64 * 1024
  const MAX_CONTENT_BLOCKS: nat := 4096

  /** What keeps a frame from being typed: no data, data that is not JSON, or JSON without a type. */
  datatype Lack = NoData | NotJson | NoType

  /** A frame as read: an event, a frame that is not typed, an unknown type, or a name that contradicts it. */
  datatype Frame =
    | Readable(event: Event)
    | Comment(lack: Lack, text: string)
    | Unknown(kind: string, index: Option<nat>)
    | Mismatched

  /** A frame and its length in bytes, blank line included. */
  datatype Sized = Sized(frame: Frame, bytes: nat)

  datatype Buffered = Buffered(
    index: nat, frames: seq<Event>, bytes: nat, thinkingBytes: nat, signature: string, valid: bool)

  datatype Filter = Filter(
    nextUpstream: nat, nextOutput: nat, active: Option<(nat, nat)>, dropped: nat, thinking: Option<Buffered>)

  const Idle := Filter(0, 0, None, 0, None)

  datatype Passed = Passed(filter: Filter, out: seq<Frame>)

  /** Control and whitespace characters, as the character classes of the platform have them. */
  type Blank = char -> bool

  function FragmentIsValid(blank: Blank, signature: string): bool {
    forall i | 0 <= i < |signature| :: !blank(signature[i])
  }

  function Refusal(lack: Lack): string {
    match lack
    case NoData => "Kimi thinking block contains an unsupported SSE frame"
    case NotJson => "Kimi thinking block contains invalid JSON"
    case NoType => "Kimi thinking block event type is missing"
  }

  /** Inside a block the index is looked at before the type. */
  function NotTheBlocks(upstream: nat, index: Option<nat>): string {
    if index != Some(upstream) then "Kimi content block index changed"
    else "Kimi content block ended before content_block_stop"
  }

  function IndexOf(e: Event): Option<nat> {
    if e.BlockStart? || e.BlockDelta? || e.BlockStop? then Some(e.index) else None
  }

  function OnFrame(blank: Blank, f: Filter, s: Sized): Result<Passed, string> {
    match s.frame
    case Comment(lack, _) =>
      if f.thinking.Some? then Err(Refusal(lack))
      else Ok(Passed(f, [s.frame]))
    case Mismatched => Err("Kimi SSE event and JSON type do not match")
    case Unknown(_, index) =>
      if f.thinking.Some? then
        if TooManyBytes(f.thinking.value, s.bytes) then Err("Kimi thinking block exceeds the bounded buffer")
        else Err("Kimi thinking block ended before content_block_stop")
      else if f.active.Some? then Err(NotTheBlocks(f.active.value.0, index))
      else Ok(Passed(f, [s.frame]))
    case Readable(e) =>
      if f.thinking.Some? then InThinking(blank, f, f.thinking.value, e, s.bytes)
      else if f.active.Some? then InBlock(f, f.active.value, e)
      else if e.BlockStart? then AtStart(blank, f, e, s.bytes)
      else Ok(Passed(f, [s.frame]))
  }

  function TooManyBytes(t: Buffered, bytes: nat): bool {
    t.bytes + bytes > MAX_THINKING_BLOCK_BYTES
  }

  function AtStart(blank: Blank, f: Filter, e: Event, bytes: nat): Result<Passed, string>
    requires e.BlockStart?
  {
    if e.index != f.nextUpstream then Err("Kimi content block start index is invalid")
    else
      match e.head
      case ThinkingHead(thinking, signature) =>
        if ByteLen(signature) > MAX_SIGNATURE_BYTES then Err("Kimi thinking signature is too large")
        else if ByteLen(thinking) > MAX_THINKING_BYTES || bytes > MAX_THINKING_BLOCK_BYTES then
          Err("Kimi thinking block exceeds the bounded buffer")
        else
          var t := Buffered(e.index, [e], bytes, ByteLen(thinking), signature, FragmentIsValid(blank, signature));
          Ok(Passed(f.(thinking := Some(t)), []))
      case _ =>
        Ok(Passed(f.(active := Some((e.index, f.nextOutput))), [Readable(AtIndex(e, f.nextOutput))]))
  }

  function InBlock(f: Filter, active: (nat, nat), e: Event): Result<Passed, string> {
    match e
    case Failure(_) => Ok(Passed(f.(active := None), [Readable(e)]))
    case Ping => Ok(Passed(f, [Readable(e)]))
    case BlockDelta(index, _) =>
      if index != active.0 then Err("Kimi content block index changed")
      else Ok(Passed(f, [Readable(AtIndex(e, active.1))]))
    case BlockStop(index) =>
      if index != active.0 then Err("Kimi content block index changed")
      else if f.nextUpstream >= MAX_INDEX then Err("Kimi content block index overflow")
      else if f.nextOutput >= MAX_INDEX then Err("Kimi output block index overflow")
      else
        Ok(Passed(f.(active := None, nextUpstream := f.nextUpstream + 1, nextOutput := f.nextOutput + 1),
                  [Readable(AtIndex(e, active.1))]))
    case _ => Err(NotTheBlocks(active.0, IndexOf(e)))
  }

  function InThinking(blank: Blank, f: Filter, t: Buffered, e: Event, bytes: nat): Result<Passed, string> {
    if e.Failure? then Ok(Passed(f.(thinking := None), [Readable(e)]))
    else if TooManyBytes(t, bytes) then Err("Kimi thinking block exceeds the bounded buffer")
    else
      var t' := t.(bytes := t.bytes + bytes, frames := t.frames + [e]);
      match e
      case Ping => Ok(Passed(f.(thinking := Some(t')), []))
      case BlockDelta(index, delta) =>
        if index != t.index then Err("Kimi thinking block index changed")
        else
          (match delta
           case ThinkingDelta(part) =>
             if t.thinkingBytes + ByteLen(part) > MAX_THINKING_BYTES then Err("Kimi thinking content is too large")
             else Ok(Passed(f.(thinking := Some(t'.(thinkingBytes := t.thinkingBytes + ByteLen(part)))), []))
           case SignatureDelta(part) =>
             if ByteLen(t.signature) + ByteLen(part) > MAX_SIGNATURE_BYTES then
               Err("Kimi thinking signature is too large")
             else
               var valid := t.valid && FragmentIsValid(blank, part);
               Ok(Passed(f.(thinking := Some(t'.(signature := t.signature + part, valid := valid))), []))
           case _ => Err("Kimi thinking delta type is unsupported"))
      case BlockStop(index) =>
        if index != t.index then Err("Kimi thinking block index changed")
        else Release(f, t')
      case _ => Err("Kimi thinking block ended before content_block_stop")
  }

  /** A finished thinking block: kept under the next output index if its signature holds, else only its pings. */
  function Release(f: Filter, t: Buffered): Result<Passed, string> {
    if f.nextUpstream >= MAX_INDEX then Err("Kimi content block index overflow")
    else
      var done := f.(thinking := None, nextUpstream := f.nextUpstream + 1);
      if !t.valid || t.signature == "" then
        Ok(Passed(done.(dropped := f.dropped + 1), Frames(PingsOf(t.frames))))
      else if f.nextOutput >= MAX_INDEX then Err("Kimi output block index overflow")
      else Ok(Passed(done.(nextOutput := f.nextOutput + 1), Frames(Reindexed(t.frames, f.nextOutput))))
  }

  function Frames(es: seq<Event>): seq<Frame> {
    seq(|es|, i requires 0 <= i < |es| => Readable(es[i]))
  }

  function PingsOf(es: seq<Event>): seq<Event> {
    if es == [] then []
    else PingsOf(es[..|es| - 1]) + (if es[|es| - 1].Ping? then [es[|es| - 1]] else [])
  }

  function AtIndex(e: Event, index: nat): Event {
    match e
    case BlockStart(_, head) => BlockStart(index, head)
    case BlockDelta(_, delta) => BlockDelta(index, delta)
    case BlockStop(_) => BlockStop(index)
    case _ => e
  }

  function Reindexed(es: seq<Event>, index: nat): seq<Event> {
    seq(|es|, i requires 0 <= i < |es| => AtIndex(es[i], index))
  }

  function OnFrames(blank: Blank, f: Filter, frames: seq<Sized>): Result<Passed, string> {
    if frames == [] then Ok(Passed(f, []))
    else
      var before :- OnFrames(blank, f, frames[..|frames| - 1]);
      var last :- OnFrame(blank, before.filter, frames[|frames| - 1]);
      Ok(Passed(last.filter, before.out + last.out))
  }

  /** A stream may end between blocks only. */
  function MayEnd(f: Filter): bool {
    f.thinking.None? && f.active.None?
  }

  // ---------- A whole answer ----------

  function ThinkingText(b: Block): string
    requires b.head.ThinkingHead?
  {
    b.head.thinking + ThinkingOf(b.deltas)
  }

  function Signature(b: Block): string
    requires b.head.ThinkingHead?
  {
    b.head.signature + SignatureOf(b.deltas)
  }

  /** Thinking without a usable signature is not kept. */
  predicate Keep(blank: Blank, b: Block) {
    b.head.ThinkingHead? ==> Signature(b) != "" && FragmentIsValid(blank, Signature(b))
  }

  function Kept(blank: Blank, blocks: seq<Block>): seq<Block> {
    if blocks == [] then []
    else
      Kept(blank, blocks[..|blocks| - 1])
      + (if Keep(blank, blocks[|blocks| - 1]) then [blocks[|blocks| - 1]] else [])
  }

  predicate Fits(b: Block) {
    b.head.ThinkingHead? ==> ByteLen(ThinkingText(b)) <= MAX_THINKING_BYTES && ByteLen(Signature(b)) <= MAX_SIGNATURE_BYTES
  }

  /** What the client can use: anything but thinking, and thinking whose signature is there and has no blank in it. */
  ghost predicate Usable(blank: Blank, b: Block) {
    b.head.ThinkingHead? ==>
      var signature := b.head.signature + SignatureOf(b.deltas);
      signature != "" && forall c | c in signature :: !blank(c)
  }

  /** The usable blocks of some content, at these places, in their order. */
  ghost predicate Selects(blank: Blank, content: seq<Block>, result: seq<Block>, places: seq<nat>) {
    && |places| == |result|
    && (forall j, k | 0 <= j < k < |places| :: places[j] < places[k])
    && (forall k | 0 <= k < |places| :: places[k] < |content| && result[k] == content[places[k]])
    && (forall i: nat | i < |content| :: i in places <==> Usable(blank, content[i]))
  }

  /** Just the usable blocks, in their order. */
  ghost predicate Filtered(blank: Blank, content: seq<Block>, result: seq<Block>) {
    exists places: seq<nat> :: Selects(blank, content, result, places)
  }

  lemma KeepIsUsable(blank: Blank, b: Block)
    ensures Keep(blank, b) <==> Usable(blank, b)
  {
    if b.head.ThinkingHead? && Keep(blank, b) {
      forall c | c in Signature(b) ensures !blank(c) {
        var i :| 0 <= i < |Signature(b)| && Signature(b)[i] == c;
      }
    }
    if b.head.ThinkingHead? && Usable(blank, b) {
      forall i | 0 <= i < |Signature(b)| ensures !blank(Signature(b)[i]) {
        assert Signature(b)[i] in Signature(b);
      }
    }
  }

  lemma {:induction false} KeptPlaces(blank: Blank, content: seq<Block>) returns (places: seq<nat>)
    ensures Selects(blank, content, Kept(blank, content), places)
  {
    if content == [] {
      places := [];
    } else {
      var front, last := content[..|content| - 1], content[|content| - 1];
      var before := KeptPlaces(blank, front);
      KeepIsUsable(blank, last);
      places := SelectsOneMore(blank, front, last, Kept(blank, front), before, content, Kept(blank, content));
    }
  }

  lemma SelectsOneMore(
      blank: Blank, front: seq<Block>, last: Block, kept: seq<Block>, before: seq<nat>, content: seq<Block>, result: seq<Block>)
    returns (places: seq<nat>)
    requires Selects(blank, front, kept, before) && |content| == |front| + 1
    requires content[..|front|] == front && content[|front|] == last
    requires result == kept + (if Usable(blank, last) then [last] else [])
    ensures Selects(blank, content, result, places)
  {
    var n := |front|;
    places := before + (if Usable(blank, last) then [n] else []);
    assert n !in before;
    assert forall i: nat | i < n :: content[i] == front[i];
    forall i: nat | i < |content| ensures i in places <==> Usable(blank, content[i]) {
      assert i < n ==> (i in places <==> i in before);
    }
  }

  /** The answer as a whole is filtered exactly when it is not too long and every thinking block fits. */
  method FilterNonstream(blank: Blank, content: seq<Block>) returns (r: Result<seq<Block>, string>)
    ensures r.Ok? <==> |content| <= MAX_CONTENT_BLOCKS && forall b | b in content :: Fits(b)
    ensures r.Ok? ==> r.value == Kept(blank, content) && Filtered(blank, content, r.value)
  {
    if |content| > MAX_CONTENT_BLOCKS {
      return Err("Kimi nonstream response has too many content blocks");
    }
    var kept := [];
    for i := 0 to |content|
      invariant forall k | 0 <= k < i :: Fits(content[k])
      invariant kept == Kept(blank, content[..i])
    {
      var b := content[i];
      assert b in content && content[..i + 1][..i] == content[..i];
      if !b.head.ThinkingHead? {
        kept := kept + [b];
        continue;
      }
      if ByteLen(ThinkingText(b)) > MAX_THINKING_BYTES {
        return Err("Kimi thinking content is too large");
      }
      if ByteLen(Signature(b)) > MAX_SIGNATURE_BYTES {
        return Err("Kimi thinking signature is too large");
      }
      if Signature(b) != "" && FragmentIsValid(blank, Signature(b)) {
        kept := kept + [b];
      }
    }
    assert content[..|content|] == content;
    ghost var places := KeptPlaces(blank, content);
    r := Ok(kept);
  }
}
