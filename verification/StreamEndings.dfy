/** How a message stream may begin and how it may end: completed, or with an error. */
module StreamEndings {
  import opened Wrappers
  import Sequences
  import opened MessageStream
  import opened Bytes
  import opened Framing
  import opened SseValidator

  predicate Errs(es: seq<Event>) {
    exists e | e in es :: e.Failure?
  }

  lemma ErrsSnoc(es: seq<Event>, e: Event)
    ensures Errs(es + [e]) <==> Errs(es) || e.Failure?
  {
    assert e in es + [e];
    assert forall x | x in es :: x in es + [e];
  }

  /** A stream has failed exactly if there is an error in it; then that is its last event. */
  lemma {:induction false} FailedIffError(es: seq<Event>)
    requires AcceptedSoFar(es)
    ensures Run(Initial, es).value.phase == Failed <==> Errs(es)
    ensures Errs(es) ==> es[|es| - 1].Failure? && !Errs(es[..|es| - 1])
  {
    if es != [] {
      FailedIffError(es[..|es| - 1]);
      Sequences.Unsnoc(es);
      ErrsSnoc(es[..|es| - 1], es[|es| - 1]);
    }
  }

  /** An error may come at any time before the end, and nothing comes after it or after the end. */
  lemma ErrorsEndIt(es: seq<Event>, e: Event, detail: string)
    requires AcceptedSoFar(es)
    ensures AcceptedSoFar(es + [Failure(detail)]) <==> !Accepted(es) && !Errs(es)
    ensures AcceptedSoFar(es + [e]) ==> !Accepted(es) && !Errs(es)
  {
    FailedIffError(es);
    RunSnoc(Initial, es, Failure(detail));
    RunSnoc(Initial, es, e);
  }

  // ---------- Beginnings ----------

  function Begun(es: seq<Event>): nat {
    if es == [] then 0 else Begun(es[..|es| - 1]) + (if es[|es| - 1].BlockStart? then 1 else 0)
  }

  lemma {:induction false} NextIsBegun(es: seq<Event>)
    requires AcceptedSoFar(es)
    ensures
      var l := Run(Initial, es).value;
      l.next + (if l.open.Some? then 1 else 0) == Begun(es) && (l.open.Some? ==> l.open == Some(l.next))
  {
    if es != [] {
      NextIsBegun(es[..|es| - 1]);
    }
  }

  const ANY_START := MessageStart("", "", 0)
  const ANY_END := MessageDelta(None, 0, 0)

  /** What completes a stream that stands there. */
  function Completing(l: Life): seq<Event> {
    match l.phase
    case AwaitMessageStart => [ANY_START, ANY_END, MessageStop]
    case Streaming => (if l.open.Some? then [BlockStop(l.open.value)] else []) + [ANY_END, MessageStop]
    case AfterMessageDelta => [MessageStop]
    case _ => []
  }

  lemma RunOne(l: Life, e: Event)
    ensures Run(l, [e]) == Advance(l, e)
  {
    assert [e][..0] == [];
  }

  lemma EndingRuns(l: Life)
    requires l.phase == Streaming && l.open.None?
    ensures Run(l, [ANY_END, MessageStop]).Some? && Run(l, [ANY_END, MessageStop]).value.phase == Complete
  {
    RunOne(l, ANY_END);
    RunSnoc(l, [ANY_END], MessageStop);
    assert [ANY_END] + [MessageStop] == [ANY_END, MessageStop];
  }

  lemma CompletingRuns(l: Life)
    requires l.phase != Failed && (l.open.Some? ==> l.phase == Streaming && l.next < MAX_INDEX)
    ensures Run(l, Completing(l)).Some? && Run(l, Completing(l)).value.phase == Complete
  {
    match l.phase
    case AwaitMessageStart =>
      RunOne(l, ANY_START);
      EndingRuns(l.(phase := Streaming));
      RunConcat(l, [ANY_START], [ANY_END, MessageStop]);
      assert [ANY_START] + [ANY_END, MessageStop] == Completing(l);
    case Streaming =>
      if l.open.Some? {
        var stop := BlockStop(l.open.value);
        RunOne(l, stop);
        EndingRuns(l.(open := None, next := l.next + 1));
        RunConcat(l, [stop], [ANY_END, MessageStop]);
      } else {
        EndingRuns(l);
        assert [] + [ANY_END, MessageStop] == [ANY_END, MessageStop];
      }
    case AfterMessageDelta =>
      RunOne(l, MessageStop);
    case _ =>
  }

  lemma {:induction false} OpenIsStreaming(es: seq<Event>)
    requires AcceptedSoFar(es)
    ensures Run(Initial, es).value.open.Some? ==> Run(Initial, es).value.phase in {Streaming, Failed}
  {
    if es != [] {
      OpenIsStreaming(es[..|es| - 1]);
    }
  }

  /** A stream without errors is acceptable so far exactly if something completes it. */
  lemma SoFarIffCompletable(es: seq<Event>)
    requires !Errs(es) && Begun(es) <= MAX_INDEX
    ensures AcceptedSoFar(es) <==> exists more: seq<Event> :: Accepted(es + more)
  {
    if AcceptedSoFar(es) {
      var l := Run(Initial, es).value;
      FailedIffError(es);
      NextIsBegun(es);
      OpenIsStreaming(es);
      CompletingRuns(l);
      RunConcat(Initial, es, Completing(l));
      assert Accepted(es + Completing(l));
    }
    if more: seq<Event> :| Accepted(es + more) {
      RunConcat(Initial, es, more);
    }
  }

  // ---------- Through the validator ----------

  /**
    A stream that ends with an error is let through whole, however it was cut, and may end there; one that does not
    end with an error or with message_stop may not.
   */
  lemma ErrorsAreLetThrough(read: Reader, chunks: seq<seq<byte>>)
    requires FeedChunks(read, chunks).Ok?
    ensures
      var fed, frames := FeedChunks(read, chunks).value, Frames(Joined(chunks), ByteEnds);
      && FrameEvents(read, frames).Some?
      && var es := FrameEvents(read, frames).value;
      && AcceptedSoFar(es)
      && (Errs(es) ==> fed.out == Joined(chunks) && Finish(fed.st) == Ok([]))
      && (Finish(fed.st).Ok? ==> Errs(es) || Accepted(es))
  {
    OnlyCopies(read, chunks);
    var fed, frames := FeedChunks(read, chunks).value, Frames(Joined(chunks), ByteEnds);
    var es := FrameEvents(read, frames).value;
    FailedIffError(es);
    NothingDropped(Joined(chunks), ByteEnds);
    if Errs(es) {
      Sequences.ConcatEmpty(Flatten(frames));
    }
  }
}
