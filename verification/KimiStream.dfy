/** The filtered stream: indexes, lifecycle, and the message a client assembles from it. */
module KimiStream {
  import opened Wrappers
  import opened Utf8
  import opened MessageStream
  import opened KimiFilter

  /** For the lifecycle a comment counts as a ping. */
  function AsEvent(frame: Frame): Event {
    if frame.Readable? then frame.event else Ping
  }

  function AsEvents(frames: seq<Frame>): seq<Event> {
    seq(|frames|, i requires 0 <= i < |frames| => AsEvent(frames[i]))
  }

  function InputEvents(frames: seq<Sized>): seq<Event> {
    seq(|frames|, i requires 0 <= i < |frames| => AsEvent(frames[i].frame))
  }

  /** Every frame is an event or a comment, and the lifecycle accepts their sequence. */
  ghost predicate Wellformed(frames: seq<Sized>) {
    && (forall s | s in frames :: s.frame.Readable? || s.frame.Comment?)
    && AcceptedSoFar(InputEvents(frames))
  }

  // ---------- Pings ----------

  lemma {:induction false} PingsDoNothing(l: Life, es: seq<Event>)
    requires Run(l, WithoutPings(es)).Some? && Run(l, WithoutPings(es)).value.phase !in {Complete, Failed}
    ensures Run(l, es) == Run(l, WithoutPings(es))
  {
    if es != [] {
      var before, e := es[..|es| - 1], es[|es| - 1];
      if e.Ping? {
        assert WithoutPings(es) == WithoutPings(before);
      } else {
        RunSnoc(l, WithoutPings(before), e);
      }
      PingsDoNothing(l, before);
    }
  }

  lemma {:induction false} PingsAddNothing(m: Message, es: seq<Event>)
    ensures Assemble(m, es) == Assemble(m, WithoutPings(es))
  {
    if es != [] {
      var before, e := es[..|es| - 1], es[|es| - 1];
      PingsAddNothing(m, before);
      if e.Ping? {
        assert WithoutPings(es) == WithoutPings(before);
      } else {
        AssembleSnoc(m, WithoutPings(before), e);
      }
    }
  }

  lemma {:induction false} OnlyPings(es: seq<Event>)
    ensures WithoutPings(PingsOf(es)) == []
  {
    if es != [] {
      var before, e := es[..|es| - 1], es[|es| - 1];
      OnlyPings(before);
      if e.Ping? {
        assert (PingsOf(before) + [e])[..|PingsOf(before)|] == PingsOf(before);
      } else {
        assert PingsOf(es) == PingsOf(before);
      }
    }
  }

  lemma {:induction false} ReindexedCore(es: seq<Event>, index: nat)
    ensures WithoutPings(Reindexed(es, index)) == Reindexed(WithoutPings(es), index)
  {
    if es != [] {
      var before, e := es[..|es| - 1], es[|es| - 1];
      ReindexedCore(before, index);
      assert Reindexed(es, index)[..|es| - 1] == Reindexed(before, index);
      if !e.Ping? {
        assert Reindexed(WithoutPings(before) + [e], index) == Reindexed(WithoutPings(before), index) + [AtIndex(e, index)];
      } else {
        assert WithoutPings(es) == WithoutPings(before);
      }
    }
  }

  lemma WithoutPingsSnoc(es: seq<Event>, e: Event)
    ensures WithoutPings(es + [e]) == WithoutPings(es) + (if e.Ping? then [] else [e])
  {
    assert (es + [e])[..|es|] == es;
  }

  // ---------- The buffered block ----------

  /** The buffer is the block so far, pings apart, with its sizes and the verdict on its whole signature. */
  ghost predicate Buffers(blank: Blank, t: Buffered, index: nat, b: Block) {
    && b.head.ThinkingHead?
    && t.index == index
    && WithoutPings(t.frames) == [BlockStart(index, b.head)] + Deltas(index, b.deltas)
    && t.signature == Signature(b)
    && t.thinkingBytes == ByteLen(ThinkingText(b)) <= MAX_THINKING_BYTES
    && ByteLen(t.signature) <= MAX_SIGNATURE_BYTES
    && t.valid == FragmentIsValid(blank, t.signature)
  }

  /** Fragment by fragment is the same as the whole. */
  lemma FragmentsAgree(blank: Blank, a: string, b: string)
    ensures FragmentIsValid(blank, a + b) <==> FragmentIsValid(blank, a) && FragmentIsValid(blank, b)
  {
    if FragmentIsValid(blank, a + b) {
      assert forall i | 0 <= i < |a| :: (a + b)[i] == a[i];
      assert forall i | 0 <= i < |b| :: (a + b)[|a| + i] == b[i];
    }
  }

  lemma BufferStarts(blank: Blank, index: nat, head: Head, bytes: nat)
    requires head.ThinkingHead? && ByteLen(head.signature) <= MAX_SIGNATURE_BYTES && ByteLen(head.thinking) <= MAX_THINKING_BYTES
    ensures Buffers(blank, Buffered(index, [BlockStart(index, head)], bytes, ByteLen(head.thinking), head.signature,
                                    FragmentIsValid(blank, head.signature)), index, Block(head, []))
  {
    var b := Block(head, []);
    assert [BlockStart(index, head)][..0] == [];
    assert head.signature + "" == head.signature && head.thinking + "" == head.thinking;
  }

  lemma DeltaSums(b: Block, delta: Delta)
    requires b.head.ThinkingHead?
    ensures
      var b' := b.(deltas := b.deltas + [delta]);
      && ThinkingText(b') == ThinkingText(b) + (if delta.ThinkingDelta? then delta.thinking else "")
      && Signature(b') == Signature(b) + (if delta.SignatureDelta? then delta.signature else "")
  {
    assert (b.deltas + [delta])[..|b.deltas|] == b.deltas;
    var text, sig := if delta.ThinkingDelta? then delta.thinking else "", if delta.SignatureDelta? then delta.signature else "";
    assert b.head.thinking + (ThinkingOf(b.deltas) + text) == b.head.thinking + ThinkingOf(b.deltas) + text;
    assert b.head.signature + (SignatureOf(b.deltas) + sig) == b.head.signature + SignatureOf(b.deltas) + sig;
  }

  lemma DeltasSnoc(index: nat, ds: seq<Delta>, d: Delta)
    ensures Deltas(index, ds + [d]) == Deltas(index, ds) + [BlockDelta(index, d)]
  {
  }

  lemma BufferGrows(blank: Blank, f: Filter, t: Buffered, b: Block, e: Event, bytes: nat)
    requires Buffers(blank, t, t.index, b) && e.BlockDelta? && e.index == t.index
    requires InThinking(blank, f, t, e, bytes).Ok?
    ensures
      var p := InThinking(blank, f, t, e, bytes).value;
      && p.out == [] && p.filter == f.(thinking := p.filter.thinking) && p.filter.thinking.Some?
      && Buffers(blank, p.filter.thinking.value, t.index, b.(deltas := b.deltas + [e.delta]))
  {
    DeltaSums(b, e.delta);
    DeltasSnoc(t.index, b.deltas, e.delta);
    WithoutPingsSnoc(t.frames, e);
    match e.delta
    case ThinkingDelta(part) =>
      ByteLenConcat(ThinkingText(b), part);
      assert Signature(b) + "" == Signature(b);
    case SignatureDelta(part) =>
      ByteLenConcat(t.signature, part);
      FragmentsAgree(blank, t.signature, part);
      assert ThinkingText(b) + "" == ThinkingText(b);
    case _ =>
  }

  // ---------- The relation ----------

  /** Input lifecycle and message, filter, output lifecycle and message. */
  ghost predicate Related(blank: Blank, l: Life, m: Message, f: Filter, o: Life, n: Message) {
    && f.nextUpstream == f.nextOutput + f.dropped
    && o.phase == l.phase
    && (l.phase != Failed ==>
          && l.next == f.nextUpstream && o.next == f.nextOutput
          && n == m.(blocks := n.blocks)
          && (l.open.Some? ==> l.open == Some(l.next) && m.blocks != [] && l.phase == Streaming)
          && (l.phase == AwaitMessageStart ==> m.blocks == [])
          && (forall i | 0 <= i < |m.blocks| - (if l.open.Some? then 1 else 0) :: Fits(m.blocks[i]))
          && Position(blank, l, m, f, o, n))
  }

  ghost predicate Position(blank: Blank, l: Life, m: Message, f: Filter, o: Life, n: Message)
    requires l.open.Some? ==> m.blocks != []
  {
    if l.open.None? then
      f.active.None? && f.thinking.None? && o.open.None? && n.blocks == Kept(blank, m.blocks)
    else
      var before, b := m.blocks[..|m.blocks| - 1], m.blocks[|m.blocks| - 1];
      if f.thinking.None? then
        && f.active == Some((l.next, o.next)) && o.open == Some(o.next)
        && !b.head.ThinkingHead? && n.blocks == Kept(blank, before) + [b]
      else
        && f.active.None? && o.open.None?
        && Buffers(blank, f.thinking.value, l.next, b) && n.blocks == Kept(blank, before)
  }

  /** Feeding one event keeps the relation. */
  ghost predicate Kept1(blank: Blank, l: Life, m: Message, p: Passed, o: Life, n: Message, e: Event) {
    && Advance(l, e).Some?
    && Run(o, AsEvents(p.out)).Some?
    && Related(blank, Advance(l, e).value, Observe(m, e), p.filter, Run(o, AsEvents(p.out)).value, Assemble(n, AsEvents(p.out)))
  }

  lemma OneOut(o: Life, n: Message, frame: Frame)
    ensures Run(o, AsEvents([frame])) == Advance(o, AsEvent(frame))
    ensures Assemble(n, AsEvents([frame])) == Observe(n, AsEvent(frame))
  {
    assert AsEvents([frame])[..0] == [];
  }

  lemma StartKeeps(blank: Blank, l: Life, m: Message, f: Filter, o: Life, n: Message, e: Event, bytes: nat)
    requires Related(blank, l, m, f, o, n) && l.phase != Failed && e.BlockStart? && Advance(l, e).Some?
    requires AtStart(blank, f, e, bytes).Ok?
    ensures Kept1(blank, l, m, AtStart(blank, f, e, bytes).value, o, n, e)
  {
    var b := Block(e.head, []);
    assert (m.blocks + [b])[..|m.blocks|] == m.blocks;
    if e.head.ThinkingHead? {
      BufferStarts(blank, e.index, e.head, bytes);
    } else {
      OneOut(o, n, Readable(AtIndex(e, f.nextOutput)));
    }
  }

  lemma DeltaInBlock(blank: Blank, l: Life, m: Message, f: Filter, o: Life, n: Message, e: Event)
    requires Related(blank, l, m, f, o, n) && l.phase != Failed && e.BlockDelta? && Advance(l, e).Some?
    requires f.thinking.None?
    ensures f.active.Some? && InBlock(f, f.active.value, e).Ok?
    ensures Kept1(blank, l, m, InBlock(f, f.active.value, e).value, o, n, e)
  {
    var last, b := |m.blocks| - 1, m.blocks[|m.blocks| - 1];
    var b' := b.(deltas := b.deltas + [e.delta]);
    OneOut(o, n, Readable(AtIndex(e, f.active.value.1)));
    assert m.blocks[last := b'][..last] == m.blocks[..last];
    var k := |n.blocks| - 1;
    assert n.blocks[k] == b && n.blocks[k := b'] == Kept(blank, m.blocks[..last]) + [b'];
  }

  lemma DeltaInThinking(blank: Blank, l: Life, m: Message, f: Filter, o: Life, n: Message, e: Event, bytes: nat)
    requires Related(blank, l, m, f, o, n) && l.phase != Failed && e.BlockDelta? && Advance(l, e).Some?
    requires f.thinking.Some? && InThinking(blank, f, f.thinking.value, e, bytes).Ok?
    ensures Kept1(blank, l, m, InThinking(blank, f, f.thinking.value, e, bytes).value, o, n, e)
  {
    var last, b := |m.blocks| - 1, m.blocks[|m.blocks| - 1];
    BufferGrows(blank, f, f.thinking.value, b, e, bytes);
    var b' := b.(deltas := b.deltas + [e.delta]);
    assert m.blocks[last := b'][..last] == m.blocks[..last];
  }

  lemma KeptSnoc(blank: Blank, blocks: seq<Block>)
    requires blocks != []
    ensures
      var before, b := blocks[..|blocks| - 1], blocks[|blocks| - 1];
      Kept(blank, blocks) == Kept(blank, before) + (if Keep(blank, b) then [b] else [])
  {
  }

  /** Closing the open block, whether it was passed on or buffered. */
  lemma ClosedKeeps(blank: Blank, l: Life, m: Message, f: Filter, o: Life, n: Message, p: Passed, e: Event, keep: bool)
    requires Related(blank, l, m, f, o, n) && l.phase != Failed && e.BlockStop? && Advance(l, e).Some?
    requires keep == Keep(blank, m.blocks[|m.blocks| - 1]) && Fits(m.blocks[|m.blocks| - 1])
    requires p.filter == Filter(f.nextUpstream + 1, f.nextOutput + (if keep then 1 else 0), None,
                                f.dropped + (if keep then 0 else 1), None)
    requires Run(o, AsEvents(p.out)) == Some(Life(Streaming, None, p.filter.nextOutput))
    requires
      var before, b := m.blocks[..|m.blocks| - 1], m.blocks[|m.blocks| - 1];
      Assemble(n, AsEvents(p.out)) == n.(blocks := Kept(blank, before) + (if keep then [b] else []))
    ensures Kept1(blank, l, m, p, o, n, e)
  {
    KeptSnoc(blank, m.blocks);
  }

  lemma StopInBlock(blank: Blank, l: Life, m: Message, f: Filter, o: Life, n: Message, e: Event)
    requires Related(blank, l, m, f, o, n) && l.phase != Failed && e.BlockStop? && Advance(l, e).Some?
    requires f.thinking.None?
    ensures f.active.Some? && InBlock(f, f.active.value, e).Ok?
    ensures Kept1(blank, l, m, InBlock(f, f.active.value, e).value, o, n, e)
  {
    OneOut(o, n, Readable(AtIndex(e, f.active.value.1)));
    ClosedKeeps(blank, l, m, f, o, n, InBlock(f, f.active.value, e).value, e, true);
  }

  lemma StopInThinking(blank: Blank, l: Life, m: Message, f: Filter, o: Life, n: Message, e: Event, bytes: nat)
    requires Related(blank, l, m, f, o, n) && l.phase != Failed && e.BlockStop? && Advance(l, e).Some?
    requires f.thinking.Some? && InThinking(blank, f, f.thinking.value, e, bytes).Ok?
    ensures Kept1(blank, l, m, InThinking(blank, f, f.thinking.value, e, bytes).value, o, n, e)
  {
    var t, b := f.thinking.value, m.blocks[|m.blocks| - 1];
    var t' := t.(bytes := t.bytes + bytes, frames := t.frames + [e]);
    WithoutPingsSnoc(t.frames, e);
    ReleaseKeeps(blank, o, n, f, t', l.next, b);
    ClosedKeeps(blank, l, m, f, o, n, Release(f, t').value, e, Keep(blank, b));
  }

  lemma ReleaseKeeps(blank: Blank, o: Life, n: Message, f: Filter, t: Buffered, index: nat, b: Block)
    requires o == Life(Streaming, None, f.nextOutput) && f.nextOutput <= f.nextUpstream
    requires Release(f, t).Ok? && b.head.ThinkingHead?
    requires t.valid == FragmentIsValid(blank, Signature(b)) && t.signature == Signature(b)
    requires WithoutPings(t.frames) == [BlockStart(index, b.head)] + Deltas(index, b.deltas) + [BlockStop(index)]
    ensures
      var p, keep := Release(f, t).value, Keep(blank, b);
      && Run(o, AsEvents(p.out)) == Some(Life(Streaming, None, p.filter.nextOutput))
      && Assemble(n, AsEvents(p.out)) == n.(blocks := n.blocks + (if keep then [b] else []))
      && p.filter == f.(thinking := None, nextUpstream := f.nextUpstream + 1,
                        dropped := f.dropped + (if keep then 0 else 1),
                        nextOutput := f.nextOutput + (if keep then 1 else 0))
  {
    if Keep(blank, b) {
      ReleasedOut(o, n, t.frames, index, b);
    } else {
      DroppedOut(o, n, t.frames);
      assert n.blocks + [] == n.blocks;
    }
  }

  lemma FramesAsEvents(es: seq<Event>)
    ensures AsEvents(Frames(es)) == es
  {
  }

  lemma DroppedOut(o: Life, n: Message, frames: seq<Event>)
    requires o.phase == Streaming
    ensures Run(o, AsEvents(Frames(PingsOf(frames)))) == Some(o)
    ensures Assemble(n, AsEvents(Frames(PingsOf(frames)))) == n
  {
    FramesAsEvents(PingsOf(frames));
    OnlyPings(frames);
    PingsDoNothing(o, PingsOf(frames));
    PingsAddNothing(n, PingsOf(frames));
  }

  lemma ReleasedOut(o: Life, n: Message, frames: seq<Event>, index: nat, b: Block)
    requires o == Life(Streaming, None, o.next) && o.next < MAX_INDEX
    requires WithoutPings(frames) == [BlockStart(index, b.head)] + Deltas(index, b.deltas) + [BlockStop(index)]
    ensures Run(o, AsEvents(Frames(Reindexed(frames, o.next)))) == Some(o.(next := o.next + 1))
    ensures Assemble(n, AsEvents(Frames(Reindexed(frames, o.next)))) == n.(blocks := n.blocks + [b])
  {
    var out := Reindexed(frames, o.next);
    FramesAsEvents(out);
    ReindexedCore(frames, o.next);
    assert Reindexed(WithoutPings(frames), o.next) == BlockEvents(o.next, b);
    OneBlockRun(o, n, b);
    PingsDoNothing(o, out);
    PingsAddNothing(n, out);
  }

  lemma QuietKeeps(blank: Blank, l: Life, m: Message, f: Filter, o: Life, n: Message, frame: Frame, bytes: nat)
    requires Related(blank, l, m, f, o, n) && l.phase != Failed && Advance(l, AsEvent(frame)).Some?
    requires frame.Comment? || (frame.Readable? && !frame.event.BlockStart? && !frame.event.BlockDelta? && !frame.event.BlockStop?)
    requires OnFrame(blank, f, Sized(frame, bytes)).Ok?
    ensures Kept1(blank, l, m, OnFrame(blank, f, Sized(frame, bytes)).value, o, n, AsEvent(frame))
  {
    OneOut(o, n, frame);
    if f.thinking.Some? && frame.Readable? && frame.event.Ping? {
      WithoutPingsSnoc(f.thinking.value.frames, frame.event);
    }
  }

  lemma FrameKeeps(blank: Blank, l: Life, m: Message, f: Filter, o: Life, n: Message, s: Sized)
    requires Related(blank, l, m, f, o, n) && (s.frame.Readable? || s.frame.Comment?) && Advance(l, AsEvent(s.frame)).Some?
    requires OnFrame(blank, f, s).Ok?
    ensures Kept1(blank, l, m, OnFrame(blank, f, s).value, o, n, AsEvent(s.frame))
  {
    var e := AsEvent(s.frame);
    if s.frame.Readable? && e.BlockStart? {
      StartKeeps(blank, l, m, f, o, n, e, s.bytes);
    } else if s.frame.Readable? && e.BlockDelta? && f.thinking.None? {
      DeltaInBlock(blank, l, m, f, o, n, e);
    } else if s.frame.Readable? && e.BlockDelta? {
      DeltaInThinking(blank, l, m, f, o, n, e, s.bytes);
    } else if s.frame.Readable? && e.BlockStop? && f.thinking.None? {
      StopInBlock(blank, l, m, f, o, n, e);
    } else if s.frame.Readable? && e.BlockStop? {
      StopInThinking(blank, l, m, f, o, n, e, s.bytes);
    } else {
      QuietKeeps(blank, l, m, f, o, n, s.frame, s.bytes);
    }
  }

  // ---------- Whole streams ----------

  /** What a stream and its output have come to. */
  datatype Track = Track(life: Life, message: Message)

  function TrackOf(es: seq<Event>): Option<Track> {
    if Run(Initial, es).None? then None else Some(Track(Run(Initial, es).value, Assemble(EmptyMessage, es)))
  }

  lemma TrackFurther(es: seq<Event>, t: Track, more: seq<Event>)
    requires TrackOf(es) == Some(t) && Run(t.life, more).Some?
    ensures TrackOf(es + more) == Some(Track(Run(t.life, more).value, Assemble(t.message, more)))
  {
    RunConcat(Initial, es, more);
    AssembleConcat(EmptyMessage, es, more);
  }

  lemma TrackOne(t: Track, e: Event)
    ensures Run(t.life, [e]) == Advance(t.life, e) && Assemble(t.message, [e]) == Observe(t.message, e)
  {
    assert [e][..0] == [];
  }

  lemma StepTracks(blank: Blank, t: Track, u: Track, s: Sized, p: Passed, out: seq<Event>) returns (t': Track, u': Track)
    requires Related(blank, t.life, t.message, p.filter, u.life, u.message) && TrackOf(out) == Some(u)
    requires (s.frame.Readable? || s.frame.Comment?) && Advance(t.life, AsEvent(s.frame)).Some?
    requires OnFrame(blank, p.filter, s).Ok?
    ensures t' == Track(Advance(t.life, AsEvent(s.frame)).value, Observe(t.message, AsEvent(s.frame)))
    ensures
      var last := OnFrame(blank, p.filter, s).value;
      && TrackOf(out + AsEvents(last.out)) == Some(u')
      && Related(blank, t'.life, t'.message, last.filter, u'.life, u'.message)
  {
    FrameKeeps(blank, t.life, t.message, p.filter, u.life, u.message, s);
    var more := AsEvents(OnFrame(blank, p.filter, s).value.out);
    TrackFurther(out, u, more);
    t' := Track(Advance(t.life, AsEvent(s.frame)).value, Observe(t.message, AsEvent(s.frame)));
    u' := Track(Run(u.life, more).value, Assemble(u.message, more));
  }

  lemma AsEventsConcat(a: seq<Frame>, b: seq<Frame>)
    ensures AsEvents(a + b) == AsEvents(a) + AsEvents(b)
  {
  }

  /** For every accepted prefix of a well-formed stream: indexes, lifecycle and message stay related. */
  lemma {:induction false} StreamRelated(blank: Blank, frames: seq<Sized>) returns (t: Track, u: Track)
    requires Wellformed(frames) && OnFrames(blank, Idle, frames).Ok?
    ensures TrackOf(InputEvents(frames)) == Some(t) && TrackOf(AsEvents(OnFrames(blank, Idle, frames).value.out)) == Some(u)
    ensures Related(blank, t.life, t.message, OnFrames(blank, Idle, frames).value.filter, u.life, u.message)
  {
    if frames == [] {
      t, u := Track(Initial, EmptyMessage), Track(Initial, EmptyMessage);
    } else {
      var before, s := frames[..|frames| - 1], frames[|frames| - 1];
      InputSnoc(before, s);
      assert before + [s] == frames;
      var t0, u0 := StreamRelated(blank, before);
      var p := OnFrames(blank, Idle, before).value;
      TrackOne(t0, AsEvent(s.frame));
      TrackFurther(InputEvents(before), t0, [AsEvent(s.frame)]);
      t, u := StepTracks(blank, t0, u0, s, p, AsEvents(p.out));
      AsEventsConcat(p.out, OnFrame(blank, p.filter, s).value.out);
    }
  }

  lemma InputSnoc(frames: seq<Sized>, s: Sized)
    ensures InputEvents(frames + [s]) == InputEvents(frames) + [AsEvent(s.frame)]
    ensures AcceptedSoFar(InputEvents(frames + [s])) ==>
      && AcceptedSoFar(InputEvents(frames))
      && Advance(Run(Initial, InputEvents(frames)).value, AsEvent(s.frame)).Some?
  {
    assert InputEvents(frames + [s]) == InputEvents(frames) + [AsEvent(s.frame)];
    RunSnoc(Initial, InputEvents(frames), AsEvent(s.frame));
  }

  /** A finished stream stays finished, may end, and holds what the whole-answer filter keeps of the message. */
  lemma FilteringCommutesWithAssembly(blank: Blank, frames: seq<Sized>)
    requires Wellformed(frames) && OnFrames(blank, Idle, frames).Ok?
    requires Accepted(InputEvents(frames))
    ensures
      var p := OnFrames(blank, Idle, frames).value;
      var m, n := Assemble(EmptyMessage, InputEvents(frames)), Assemble(EmptyMessage, AsEvents(p.out));
      && Accepted(AsEvents(p.out)) && MayEnd(p.filter)
      && n == m.(blocks := Kept(blank, m.blocks))
      && (forall b | b in m.blocks :: Fits(b))
      && p.filter.dropped == |m.blocks| - |n.blocks|
  {
    var t, u := StreamRelated(blank, frames);
    var start, end := AcceptedShape(InputEvents(frames));
    var start', end' := AcceptedShape(AsEvents(OnFrames(blank, Idle, frames).value.out));
  }

  /** Where a stream may end: exactly between its blocks. */
  lemma MayEndBetweenBlocks(blank: Blank, frames: seq<Sized>)
    requires Wellformed(frames) && OnFrames(blank, Idle, frames).Ok?
    requires Run(Initial, InputEvents(frames)).value.phase != Failed
    ensures MayEnd(OnFrames(blank, Idle, frames).value.filter) <==> Run(Initial, InputEvents(frames)).value.open.None?
  {
    var t, u := StreamRelated(blank, frames);
  }

  ghost predicate AddsUp(f: Filter) {
    && f.nextUpstream == f.nextOutput + f.dropped
    && (f.active.Some? ==> f.active.value == (f.nextUpstream, f.nextOutput) && f.thinking.None?)
    && (f.thinking.Some? ==> f.thinking.value.index == f.nextUpstream)
  }

  lemma FrameAddsUp(blank: Blank, f: Filter, s: Sized)
    requires AddsUp(f) && OnFrame(blank, f, s).Ok?
    ensures AddsUp(OnFrame(blank, f, s).value.filter)
  {
  }

  /** In every reachable state, upstream blocks are those passed on and those dropped. */
  lemma {:induction false} IndexesAddUp(blank: Blank, frames: seq<Sized>)
    requires OnFrames(blank, Idle, frames).Ok?
    ensures AddsUp(OnFrames(blank, Idle, frames).value.filter)
  {
    if frames != [] {
      IndexesAddUp(blank, frames[..|frames| - 1]);
      FrameAddsUp(blank, OnFrames(blank, Idle, frames[..|frames| - 1]).value.filter, frames[|frames| - 1]);
    }
  }
}
