/** The streaming DSML rewriter, specified on values: hold-back while passing text, a buffer while capturing a wrapper. */
module DsmlRewriter {
  import opened Wrappers
  import opened Utf8
  import opened JsonValues
  import opened Decimals
  import opened MessageStream
  import opened DsmlText

  // Bytes a capture may hold before it is given up as text.
  const CAP: nat := 256 * 1024

  /** Whatever has been dealt with: text said, or a wrapper region turned into calls. */
  datatype Piece = Said(text: string) | Called(region: string, calls: seq<Call>)

  datatype Mode = Pass | Capture

  datatype Config = Config(parse: Parser, nonce: string, codec: Codec)

  datatype Rewriter = Rewriter(
    nextOut: nat, curOut: Option<nat>, curIsText: bool, synthesized: bool, toolCount: nat,
    mode: Mode, scan: string, cap: string)

  const Idle := Rewriter(0, None, false, false, 0, Pass, "", "")

  datatype Step = Step(st: Rewriter, out: seq<Event>, pieces: seq<Piece>)

  function After(first: Step, second: Step): Step {
    Step(second.st, first.out + second.out, first.pieces + second.pieces)
  }

  // ---------- Output blocks ----------

  function Say(st: Rewriter, text: string): Step {
    match st.curOut
    case Some(index) => Step(st, [BlockDelta(index, TextDelta(text))], [Said(text)])
    case None =>
      Step(st.(nextOut := st.nextOut + 1, curOut := Some(st.nextOut), curIsText := true),
           [BlockStart(st.nextOut, TextHead("")), BlockDelta(st.nextOut, TextDelta(text))], [Said(text)])
  }

  function CloseCurrent(st: Rewriter): Step {
    match st.curOut
    case Some(index) => Step(st.(curOut := None), [BlockStop(index)], [])
    case None => Step(st, [], [])
  }

  function SayBlock(st: Rewriter, text: string): Step {
    var said := Say(st, text);
    After(said, CloseCurrent(said.st))
  }

  function ToolId(nonce: string, n: nat): string {
    "toolu_dsml_" + nonce + "_" + Decimal(n)
  }

  function CallEvents(c: Config, st: Rewriter, call: Call): seq<Event> {
    [BlockStart(st.nextOut, ToolHead(ToolId(c.nonce, st.toolCount + 1), call.name)),
     BlockDelta(st.nextOut, InputJsonDelta(c.codec.write(call.input))),
     BlockStop(st.nextOut)]
  }

  /** The first n calls of a wrapper, each as a complete block. */
  function MakeCalls(c: Config, st: Rewriter, calls: seq<Call>, n: nat): (Rewriter, seq<Event>)
    requires n <= |calls|
  {
    if n == 0 then (st, [])
    else
      var (before, out) := MakeCalls(c, st, calls, n - 1);
      (before.(nextOut := before.nextOut + 1, toolCount := before.toolCount + 1),
       out + CallEvents(c, before, calls[n - 1]))
  }

  // ---------- Text ----------

  /** Text before an opening tag is said, the open block closed, and the rest captured. */
  ghost function Captured(st: Rewriter): Step
    requires FindOpen(st.scan).Some?
  {
    var start := FindOpen(st.scan).value.start;
    var before := st.scan[..start];
    var said := if before == "" then Step(st, [], []) else Say(st, before);
    var closed := After(said, CloseCurrent(said.st));
    closed.(st := closed.st.(cap := st.scan[start..], scan := "", mode := Capture))
  }

  ghost function PassScan(c: Config, st: Rewriter): Step
    decreases 2 * |st.scan| + 1
  {
    match FindOpen(st.scan)
    case Some(_) =>
      var captured := Captured(st);
      After(captured, CaptureScan(c, captured.st))
    case None =>
      var keep := MAX_OPEN - 1;
      if |st.scan| <= keep then Step(st, [], [])
      else
        var split := |st.scan| - keep;
        Say(st.(scan := st.scan[split..]), st.scan[..split])
  }

  /** What a complete wrapper region becomes. */
  function Resolve(c: Config, st: Rewriter, region: string): Step {
    var calls := c.parse(region);
    if calls == [] then SayBlock(st, region)
    else
      var (made, out) := MakeCalls(c, st, calls, |calls|);
      Step(made.(synthesized := true), out, [Called(region, calls)])
  }

  ghost function CaptureScan(c: Config, st: Rewriter): Step
    decreases 2 * |st.cap|
  {
    match FindWrapper(st.cap, 0)
    case Some(found) =>
      var resolved := Resolve(c, st, st.cap[found.start..found.end]);
      var rest := st.cap[found.end..];
      var passing := resolved.st.(cap := "", mode := Pass, curOut := None);
      if rest == "" then resolved.(st := passing)
      else After(resolved, PassScan(c, passing.(scan := rest)))
    case None =>
      if ByteLen(st.cap) > CAP then
        var said := SayBlock(st.(cap := ""), st.cap);
        said.(st := said.st.(mode := Pass, curOut := None))
      else Step(st, [], [])
  }

  ghost function OnText(c: Config, st: Rewriter, text: string): Step {
    match st.mode
    case Pass => PassScan(c, st.(scan := st.scan + text))
    case Capture => CaptureScan(c, st.(cap := st.cap + text))
  }

  // ---------- Ends ----------

  function OnBlockStop(st: Rewriter): Step {
    var emptied :=
      if st.mode == Capture then
        var said := if st.cap == "" then Step(st, [], []) else SayBlock(st.(cap := ""), st.cap);
        said.(st := said.st.(mode := Pass))
      else if st.scan != "" && st.curOut.Some? then Say(st.(scan := ""), st.scan)
      else Step(st, [], []);
    After(emptied, CloseCurrent(emptied.st))
  }

  function FlushPending(st: Rewriter): Step {
    var emptied :=
      if st.mode == Capture && st.cap != "" then
        var said := SayBlock(st.(cap := ""), st.cap);
        said.(st := said.st.(mode := Pass))
      else if st.scan != "" then Say(st.(scan := ""), st.scan)
      else Step(st, [], []);
    After(emptied, CloseCurrent(emptied.st))
  }

  function FinalStopReason(st: Rewriter, stopReason: Option<string>): Option<string> {
    if st.synthesized && (stopReason.None? || stopReason.value in {"end_turn", "stop"}) then Some("tool_use")
    else stopReason
  }

  // ---------- Events ----------

  ghost function OnEvent(c: Config, st: Rewriter, e: Event): Step {
    match e
    case BlockStart(_, head) =>
      Step(st.(curIsText := head.TextHead?, curOut := Some(st.nextOut), nextOut := st.nextOut + 1),
           [BlockStart(st.nextOut, head)], [])
    case BlockDelta(index, delta) =>
      if st.curIsText && delta.TextDelta? then OnText(c, st, delta.text)
      else Step(st, [BlockDelta(if st.curOut.Some? then st.curOut.value else index, delta)], [])
    case BlockStop(_) => OnBlockStop(st)
    case MessageDelta(stopReason, inputTokens, outputTokens) =>
      var flushed := FlushPending(st);
      After(flushed,
            Step(flushed.st, [MessageDelta(FinalStopReason(flushed.st, stopReason), inputTokens, outputTokens)], []))
    case MessageStop =>
      var flushed := FlushPending(st);
      After(flushed, Step(flushed.st, [MessageStop], []))
    case _ => Step(st, [e], [])
  }

  /** Steps one after the other. */
  function RunSteps(step: (Rewriter, Event) -> Step, st: Rewriter, es: seq<Event>): Step {
    if es == [] then Step(st, [], [])
    else
      var before := RunSteps(step, st, es[..|es| - 1]);
      After(before, step(before.st, es[|es| - 1]))
  }

  ghost function Stepper(c: Config): (Rewriter, Event) -> Step {
    (st: Rewriter, e: Event) => OnEvent(c, st, e)
  }

  ghost function OnEvents(c: Config, st: Rewriter, es: seq<Event>): Step {
    RunSteps(Stepper(c), st, es)
  }

  /** What is left when the bytes end. */
  function FinalizeText(st: Rewriter): Step {
    var captured :=
      if st.mode == Capture && st.cap != "" then
        var said := SayBlock(st.(cap := ""), st.cap);
        said.(st := said.st.(mode := Pass))
      else Step(st, [], []);
    var scanned :=
      if captured.st.scan != "" then After(captured, Say(captured.st.(scan := ""), captured.st.scan)) else captured;
    After(scanned, CloseCurrent(scanned.st))
  }
}
