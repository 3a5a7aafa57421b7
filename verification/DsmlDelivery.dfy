/** From the bytes of a stream to what a client assembles. */
module DsmlDelivery {
  // Whatever the chunks and the deltas, the rewritten stream is the segments of the message's texts.

  import opened Wrappers
  import Sequences
  import opened MessageStream
  import opened Framing
  import opened Bytes
  import opened Utf8Text
  import opened DsmlRewriter
  import opened DsmlStream
  import opened DsmlBody
  import opened DsmlMessage
  import opened DsmlObject

  /** The event of a frame; a frame that is none, such as a comment, says nothing. */
  ghost function EventOf(read: Reader, frame: string): seq<Event> {
    match read(Unended(frame)) case None => [] case Some(e) => [e]
  }

  ghost function EventsRead(read: Reader, frames: seq<string>): seq<Event> {
    if frames == [] then []
    else EventsRead(read, frames[..|frames| - 1]) + EventOf(read, frames[|frames| - 1])
  }

  /** The events a client reads; a frame passed on as it came is none. */
  function EventsSent(out: seq<Emission>): seq<Event> {
    if out == [] then []
    else EventsSent(out[..|out| - 1]) + (if out[|out| - 1].Emit? then [out[|out| - 1].event] else [])
  }

  lemma SentSnoc(out: seq<Emission>, x: Emission)
    ensures EventsSent(out + [x]) == EventsSent(out) + (if x.Emit? then [x.event] else [])
  {
    Sequences.Snoc(out, x);
  }

  lemma {:induction false} EmitsAreSent(out: seq<Emission>, es: seq<Event>)
    ensures EventsSent(out + Emits(es)) == EventsSent(out) + es
  {
    if es == [] {
      Sequences.ConcatEmpty(out);
      Sequences.ConcatEmpty(EventsSent(out));
    } else {
      var short, last := es[..|es| - 1], es[|es| - 1];
      EmitsAreSent(out, short);
      Sequences.Unsnoc(es);
      assert Emits(es) == Emits(short) + [Emit(last)];
      Sequences.Associate(out, Emits(short), [Emit(last)]);
      SentSnoc(out + Emits(short), Emit(last));
      Sequences.Associate(EventsSent(out), short, [last]);
    }
  }

  /** Handling frames is handling the events they hold. */
  lemma {:induction false} FramesAreEvents(c: Config, read: Reader, st: Rewriter, frames: seq<string>)
    ensures
      var s := OnEvents(c, st, EventsRead(read, frames));
      OnFrames(c, read, st, frames).0 == s.st && EventsSent(OnFrames(c, read, st, frames).1) == s.out
  {
    if frames != [] {
      var short, frame := frames[..|frames| - 1], frames[|frames| - 1];
      FramesAreEvents(c, read, st, short);
      var (before, out) := OnFrames(c, read, st, short);
      var es := EventsRead(read, short);
      match read(Unended(frame))
      case None =>
        SentSnoc(out, Verbatim(Unended(frame)));
        Sequences.ConcatEmpty(EventsSent(out));
        Sequences.ConcatEmpty(es);
      case Some(e) =>
        EmitsAreSent(out, OnEvent(c, before, e).out);
        OnEventsSnoc(c, st, es, e);
    }
  }

  /**
    Whatever chunks the bytes come in and whatever deltas its texts are cut into, a message sent as frames comes out
    with the segments of every text, calls numbered throughout, and its other blocks; nothing is held back at the end.
   */
  lemma DeliveryHoldsSegments(
      c: Config, read: Reader, chunks: seq<seq<byte>>, text: string,
      start: Event, parts: seq<Part>, blocks: seq<Block>, end: Event)
    requires JoinedBytes(chunks) == EncodeAll(text)
    requires start.MessageStart? && end.MessageDelta? && CutsOf(parts, blocks) && Safe(c.parse, parts)
    requires EventsRead(read, Frames(text, TextEnds)) == Streamed(start, blocks, end)
    ensures
      var s := FeedChunks(c, read, chunks);
      var m, r := Assemble(EmptyMessage, EventsSent(s.out)), Planned(c, parts);
      && Joined(Contents(m.blocks)) == Joined(r.content)
      && m == Message(start.id, start.model, m.blocks, FinalReason(r.changed, end.stopReason),
                      end.inputTokens, end.outputTokens)
      && s.pending == [] && FinalizeText(s.st).out == []
  {
    ValidBytesAreAllHandled(c, read, chunks, text);
    FramesAreEvents(c, read, Idle, Frames(text, TextEnds));
    StreamHoldsSegments(c, start, parts, blocks, end);
  }

  /** And a client reads the rewritten body. */
  lemma DeliveryAgreesWithBody(
      c: Config, read: Reader, chunks: seq<seq<byte>>, text: string,
      start: Event, parts: seq<Part>, blocks: seq<Block>, end: Event)
    requires JoinedBytes(chunks) == EncodeAll(text)
    requires start.MessageStart? && end.MessageDelta? && CutsOf(parts, blocks) && Safe(c.parse, parts)
    requires EventsRead(read, Frames(text, TextEnds)) == Streamed(start, blocks, end)
    ensures
      var sent := Assemble(EmptyMessage, EventsSent(FeedChunks(c, read, chunks).out));
      var plain := Assemble(EmptyMessage, EventsRead(read, Frames(text, TextEnds)));
      var body := RewriteBody(c, Body(Contents(plain.blocks), plain.stopReason));
      Joined(Contents(sent.blocks)) == Joined(body.content) && sent.stopReason == body.stopReason
  {
    ValidBytesAreAllHandled(c, read, chunks, text);
    FramesAreEvents(c, read, Idle, Frames(text, TextEnds));
    StreamAgreesWithBody(c, start, parts, blocks, end);
  }
}
