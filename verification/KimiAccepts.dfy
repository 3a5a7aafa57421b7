/** Which streams the filter lets through, and what is left of them. */
module KimiAccepts {
  // Said of any stream the lifecycle accepts, frame by frame.

  import opened Wrappers
  import opened Utf8
  import opened MessageStream
  import opened KimiFilter
  import opened KimiStream

  /** A client of the filtered stream holds just the blocks it can use, in their order. */
  lemma StreamKeepsTheUsable(blank: Blank, frames: seq<Sized>)
    requires Wellformed(frames) && OnFrames(blank, Idle, frames).Ok? && Accepted(InputEvents(frames))
    ensures
      var m, n := Assemble(EmptyMessage, InputEvents(frames)),
                  Assemble(EmptyMessage, AsEvents(OnFrames(blank, Idle, frames).value.out));
      Filtered(blank, m.blocks, n.blocks) && n == m.(blocks := n.blocks)
  {
    FilteringCommutesWithAssembly(blank, frames);
    var m := Assemble(EmptyMessage, InputEvents(frames));
    var places := KeptPlaces(blank, m.blocks);
  }

  // ---------- What is let through ----------

  function LifeAfter(frames: seq<Sized>): Life
    requires Wellformed(frames)
  {
    Run(Initial, InputEvents(frames)).value
  }

  function MessageAfter(frames: seq<Sized>): Message {
    Assemble(EmptyMessage, InputEvents(frames))
  }

  /** The bytes of the frames since a block last began, its first frame included. */
  function BytesSinceStart(frames: seq<Sized>): nat {
    if frames == [] then 0
    else
      var s := frames[|frames| - 1];
      if s.frame.Readable? && s.frame.event.BlockStart? then s.bytes
      else BytesSinceStart(frames[..|frames| - 1]) + s.bytes
  }

  /** A thinking block is being sent. */
  predicate Thinks(l: Life, m: Message) {
    l.open.Some? && m.blocks != [] && m.blocks[|m.blocks| - 1].head.ThinkingHead?
  }

  predicate SizesFit(b: Block)
    requires b.head.ThinkingHead?
  {
    && ByteLen(b.head.thinking + ThinkingOf(b.deltas)) <= 1024 * 1024
    && ByteLen(b.head.signature + SignatureOf(b.deltas)) <= 64 * 1024
  }

  /**
    Inside a thinking block only deltas of thinking and signature within their sizes, pings and the stop, all within
    two mebibytes of frames, or an error; elsewhere everything, but a thinking block that begins too big.
   */
  ghost predicate Passable(front: seq<Sized>, s: Sized)
    requires Wellformed(front)
  {
    var l, m := LifeAfter(front), MessageAfter(front);
    if Thinks(l, m) then
      && s.frame.Readable?
      && (s.frame.event.Failure?
          || (&& BytesSinceStart(front) + s.bytes <= 2 * 1024 * 1024
              && (s.frame.event.BlockDelta? ==>
                    && (s.frame.event.delta.ThinkingDelta? || s.frame.event.delta.SignatureDelta?)
                    && var b := m.blocks[|m.blocks| - 1];
                    SizesFit(b.(deltas := b.deltas + [s.frame.event.delta])))))
    else
      s.frame.Readable? && s.frame.event.BlockStart? && s.frame.event.head.ThinkingHead? ==>
        SizesFit(Block(s.frame.event.head, [])) && s.bytes <= 2 * 1024 * 1024
  }

  ghost predicate AllPassable(frames: seq<Sized>)
    requires Wellformed(frames)
  {
    forall i: nat | i < |frames| :: PassableAt(frames, i)
  }

  lemma WellformedBefore(frames: seq<Sized>)
    requires Wellformed(frames) && frames != []
    ensures
      var front, s := frames[..|frames| - 1], frames[|frames| - 1];
      && Wellformed(front) && (s.frame.Readable? || s.frame.Comment?)
      && Advance(LifeAfter(front), AsEvent(s.frame)).Some?
  {
    var front, s := frames[..|frames| - 1], frames[|frames| - 1];
    InputSnoc(front, s);
    assert front + [s] == frames && s in frames;
    assert forall x | x in front :: x in frames;
  }

  lemma SamePrefix(frames: seq<Sized>, n: nat, i: nat)
    requires i < n <= |frames|
    ensures frames[..n][..i] == frames[..i] && frames[..n][i] == frames[i]
  {
  }

  ghost predicate PassableAt(frames: seq<Sized>, i: nat)
    requires i < |frames|
  {
    Wellformed(frames[..i]) && Passable(frames[..i], frames[i])
  }

  lemma PassableBefore(frames: seq<Sized>)
    requires Wellformed(frames) && frames != [] && Wellformed(frames[..|frames| - 1])
    ensures
      var n := |frames| - 1;
      AllPassable(frames) <==> AllPassable(frames[..n]) && Passable(frames[..n], frames[n])
  {
    var n := |frames| - 1;
    forall i: nat | i < n ensures PassableAt(frames[..n], i) == PassableAt(frames, i) {
      SamePrefix(frames, n, i);
    }
    if AllPassable(frames) {
      assert PassableAt(frames, n);
      forall i: nat | i < n ensures PassableAt(frames[..n], i) {
        assert PassableAt(frames, i);
      }
    }
    if AllPassable(frames[..n]) && Passable(frames[..n], frames[n]) {
      forall i: nat | i < |frames| ensures PassableAt(frames, i) {
        assert i < n ==> PassableAt(frames[..n], i);
      }
    }
  }

  /** The filter's buffer counts the frames of the block it holds. */
  predicate Counts(f: Filter, frames: seq<Sized>) {
    f.thinking.Some? ==> f.thinking.value.bytes == BytesSinceStart(frames)
  }

  lemma FrameCounts(blank: Blank, f: Filter, frames: seq<Sized>)
    requires frames != [] && Counts(f, frames[..|frames| - 1]) && OnFrame(blank, f, frames[|frames| - 1]).Ok?
    requires frames[|frames| - 1].frame.Readable? || frames[|frames| - 1].frame.Comment?
    requires f.thinking.Some? || f.active.Some? ==> !(frames[|frames| - 1].frame.Readable? && frames[|frames| - 1].frame.event.BlockStart?)
    ensures Counts(OnFrame(blank, f, frames[|frames| - 1]).value.filter, frames)
  {
  }

  lemma OpenTakesNoStart(l: Life, e: Event)
    requires l.open.Some? && Advance(l, e).Some?
    ensures e.Ping? || e.BlockDelta? || e.BlockStop? || e.Failure? || e.MessageStart? || e.MessageStop?
    ensures (e.BlockDelta? ==> l.open == Some(e.index)) && (e.BlockStop? ==> l.open == Some(e.index) && l.next < MAX_INDEX)
  {
  }

  /** One more delta of a buffered block is within the sizes exactly if the buffer's own count is. */
  lemma DeltaFits(blank: Blank, t: Buffered, b: Block, delta: Delta)
    requires Buffers(blank, t, t.index, b) && (delta.ThinkingDelta? || delta.SignatureDelta?)
    ensures
      SizesFit(b.(deltas := b.deltas + [delta]))
      <==> if delta.ThinkingDelta? then t.thinkingBytes + ByteLen(delta.thinking) <= MAX_THINKING_BYTES
           else ByteLen(t.signature) + ByteLen(delta.signature) <= MAX_SIGNATURE_BYTES
  {
    DeltaSums(b, delta);
    if delta.ThinkingDelta? {
      ByteLenConcat(ThinkingText(b), delta.thinking);
      assert Signature(b) + "" == Signature(b);
    } else {
      ByteLenConcat(t.signature, delta.signature);
      assert ThinkingText(b) + "" == ThinkingText(b);
    }
  }

  lemma BufferedDelta(blank: Blank, f: Filter, t: Buffered, b: Block, e: Event, bytes: nat)
    requires Buffers(blank, t, t.index, b) && e.BlockDelta? && e.index == t.index
    ensures
      InThinking(blank, f, t, e, bytes).Ok?
      <==> && t.bytes + bytes <= MAX_THINKING_BLOCK_BYTES
           && (e.delta.ThinkingDelta? || e.delta.SignatureDelta?)
           && SizesFit(b.(deltas := b.deltas + [e.delta]))
  {
    if e.delta.ThinkingDelta? || e.delta.SignatureDelta? {
      DeltaFits(blank, t, b, e.delta);
    }
  }

  lemma BufferedOther(blank: Blank, f: Filter, t: Buffered, e: Event, bytes: nat)
    requires e.Ping? || e.Failure? || (e.BlockStop? && e.index == t.index && f.nextOutput <= f.nextUpstream < MAX_INDEX)
    ensures InThinking(blank, f, t, e, bytes).Ok? <==> e.Failure? || t.bytes + bytes <= MAX_THINKING_BLOCK_BYTES
  {
  }

  lemma InThinkingPasses(blank: Blank, l: Life, m: Message, f: Filter, o: Life, n: Message, front: seq<Sized>, s: Sized)
    requires Related(blank, l, m, f, o, n) && l.phase != Failed && f.thinking.Some? && Counts(f, front)
    requires Wellformed(front) && l == LifeAfter(front) && m == MessageAfter(front)
    requires s.frame.Readable? && Advance(l, s.frame.event).Some?
    ensures OnFrame(blank, f, s).Ok? <==> Passable(front, s)
  {
    var e, t, b := s.frame.event, f.thinking.value, m.blocks[|m.blocks| - 1];
    OpenTakesNoStart(l, e);
    assert OnFrame(blank, f, s) == InThinking(blank, f, t, e, s.bytes) && Thinks(l, m);
    if e.BlockDelta? {
      BufferedDelta(blank, f, t, b, e, s.bytes);
    } else {
      BufferedOther(blank, f, t, e, s.bytes);
    }
  }

  lemma ElsewherePasses(blank: Blank, l: Life, m: Message, f: Filter, o: Life, n: Message, front: seq<Sized>, s: Sized)
    requires Related(blank, l, m, f, o, n) && l.phase != Failed && f.thinking.None?
    requires Wellformed(front) && l == LifeAfter(front) && m == MessageAfter(front)
    requires (s.frame.Readable? || s.frame.Comment?) && Advance(l, AsEvent(s.frame)).Some?
    ensures OnFrame(blank, f, s).Ok? <==> Passable(front, s)
  {
    if l.open.Some? {
      OpenTakesNoStart(l, AsEvent(s.frame));
    } else if s.frame.Readable? && s.frame.event.BlockStart? && s.frame.event.head.ThinkingHead? {
      var head := s.frame.event.head;
      assert head.thinking + "" == head.thinking && head.signature + "" == head.signature;
    }
  }

  lemma FramePasses(blank: Blank, l: Life, m: Message, f: Filter, o: Life, n: Message, front: seq<Sized>, s: Sized)
    requires Related(blank, l, m, f, o, n) && Counts(f, front)
    requires Wellformed(front) && l == LifeAfter(front) && m == MessageAfter(front)
    requires (s.frame.Readable? || s.frame.Comment?) && Advance(l, AsEvent(s.frame)).Some?
    ensures OnFrame(blank, f, s).Ok? <==> Passable(front, s)
  {
    if f.thinking.Some? && s.frame.Readable? {
      InThinkingPasses(blank, l, m, f, o, n, front, s);
    } else if f.thinking.None? {
      ElsewherePasses(blank, l, m, f, o, n, front, s);
    }
  }

  /** A stream the lifecycle accepts is let through exactly if each of its frames is passable where it comes. */
  lemma {:induction false} PassedIffPassable(blank: Blank, frames: seq<Sized>)
    requires Wellformed(frames)
    ensures OnFrames(blank, Idle, frames).Ok? <==> AllPassable(frames)
    ensures OnFrames(blank, Idle, frames).Ok? ==> Counts(OnFrames(blank, Idle, frames).value.filter, frames)
  {
    if frames != [] {
      var front, s := frames[..|frames| - 1], frames[|frames| - 1];
      WellformedBefore(frames);
      PassableBefore(frames);
      PassedIffPassable(blank, front);
      if OnFrames(blank, Idle, front).Ok? {
        var t, u := StreamRelated(blank, front);
        var f := OnFrames(blank, Idle, front).value.filter;
        FramePasses(blank, t.life, t.message, f, u.life, u.message, front, s);
        if OnFrame(blank, f, s).Ok? {
          FrameCounts(blank, f, frames);
        }
      }
    }
  }
}
