/** The round trip from upstream events to upstream items. */
module ReplayUpstream {
  // Handing back the answer of a completed run restores the items its events told of, in order.

  import opened Wrappers
  import Sequences
  import opened JsonValues
  import opened MessageStream
  import opened ThinkingSignature
  import opened ToolNames
  import opened Reducer
  import opened ReducerInvariant
  import opened ReducerRuns
  import opened OneShotAnswer
  import opened SealOrder
  import opened HistoryTranslation
  import opened UpstreamAccount
  import opened CloserWatch
  import opened ReplayTurn

  /** Arguments are parsed on the way down and written again on the way up. */
  function Rewritten(c: Reducer.Context, arguments: string): string {
    if c.codec.parse(arguments).Some? then c.codec.write(c.codec.parse(arguments).value) else ""
  }

  /** An item as upstream sees it again, under some name for its call. */
  function ItemNamed(c: Reducer.Context, t: Told, name: string): InputItem {
    match t
    case ToldText(_, text) => MessageItem(Assistant, [OutputText(text)])
    case ToldReasoning(id, text, encrypted) => ReasoningItem(id, text, encrypted)
    case ToldTool(_, callId, _, arguments) => FunctionCall(callId, name, Rewritten(c, arguments))
  }

  function NameOf(t: Told): string { if t.ToldTool? then t.name else "" }

  /** The item that was told of. */
  function UpstreamItem(c: Reducer.Context, t: Told): InputItem { ItemNamed(c, t, NameOf(t)) }

  /** The item with its name translated for the client and back. */
  function RestoredItem(c: Reducer.Context, t: Told): InputItem {
    ItemNamed(c, t, c.toolNames.CodexName(c.toolNames.AnthropicName(NameOf(t))))
  }

  function UpstreamItems(c: Reducer.Context, told: seq<Told>): seq<InputItem> {
    seq(|told|, i requires 0 <= i < |told| => UpstreamItem(c, told[i]))
  }

  function RestoredItems(c: Reducer.Context, told: seq<Told>): seq<InputItem> {
    seq(|told|, i requires 0 <= i < |told| => RestoredItem(c, told[i]))
  }

  ghost function CallsTold(told: seq<Told>): set<string> {
    set t | t in told && t.ToldTool? :: t.callId
  }

  // ---------- What the tables restore is what was told ----------

  lemma OriginalIsTold(c: Reducer.Context, es: seq<UpstreamEvent>, s: State, i: nat)
    requires ReplayTurn.Finished(c, s) && HoldsAccount(c, es, s) && i < |s.blockOrder|
    ensures |s.blockOrder| == |WholeAccount(es)|
    ensures Original(c, s, s.blockOrder[i]) == RestoredItem(c, WholeAccount(es)[i])
  {
    var t := WholeAccount(es)[i];
    assert t in WholeAccount(es) && s.blockOrder[i] == KeyOf(t);
    BlockFacts(c, s, i);
    match t
    case ToldText(_, _) =>
    case ToldReasoning(id, _, _) =>
      assert Stage(c, s, id);
    case ToldTool(id, _, _, _) =>
      assert ToolNamed(c, s, id);
  }

  lemma OriginalsAreTold(c: Reducer.Context, es: seq<UpstreamEvent>, s: State)
    requires ReplayTurn.Finished(c, s) && HoldsAccount(c, es, s)
    ensures Originals(c, s, |s.blockOrder|) == RestoredItems(c, WholeAccount(es))
  {
    assert |s.blockOrder| == |WholeAccount(es)|;
    forall i | 0 <= i < |s.blockOrder|
      ensures Originals(c, s, |s.blockOrder|)[i] == RestoredItems(c, WholeAccount(es))[i]
    {
      OriginalIsTold(c, es, s, i);
    }
  }

  lemma CallsAreTold(c: Reducer.Context, es: seq<UpstreamEvent>, s: State)
    requires HoldsAccount(c, es, s)
    ensures Calls(s, |s.blockOrder|) == CallsTold(WholeAccount(es))
  {
    var told := WholeAccount(es);
    assert |s.blockOrder| == |told|;
    forall call ensures call in Calls(s, |s.blockOrder|) <==> call in CallsTold(told) {
      if call in Calls(s, |s.blockOrder|) {
        var i :| 0 <= i < |s.blockOrder| && s.blockOrder[i].ToolKey? && s.blockOrder[i].id in s.tools
                 && s.tools[s.blockOrder[i].id].callId == call;
        assert told[i] in told && HoldsTold(c, s, told[i]) && KeyOf(told[i]) == s.blockOrder[i];
      }
      if call in CallsTold(told) {
        var t :| t in told && t.ToldTool? && t.callId == call;
        var i :| 0 <= i < |told| && told[i] == t;
        assert HoldsTold(c, s, t) && s.blockOrder[i] == KeyOf(t);
      }
    }
  }

  // ---------- Names ----------

  function CallNames(items: seq<InputItem>): seq<string> {
    if items == [] then []
    else
      CallNames(items[..|items| - 1])
      + (if items[|items| - 1].FunctionCall? then [items[|items| - 1].name] else [])
  }

  lemma CallNamesSnoc(items: seq<InputItem>, item: InputItem)
    ensures CallNames(items + [item]) == CallNames(items) + (if item.FunctionCall? then [item.name] else [])
  {
    Sequences.Snoc(items, item);
  }

  /** Joining messages leaves the calls, and their names, as they are. */
  lemma {:induction false} MergeKeepsNames(items: seq<InputItem>)
    ensures CallNames(Merge(items)) == CallNames(items)
  {
    if items != [] {
      var before, last := items[..|items| - 1], items[|items| - 1];
      MergeKeepsNames(before);
      JoinedNames(Merge(before), last);
    }
  }

  lemma JoinedNames(merged: seq<InputItem>, item: InputItem)
    ensures CallNames(ReplayTurn.Joined(merged, item)) == CallNames(merged) + (if item.FunctionCall? then [item.name] else [])
  {
    if merged != [] && merged[|merged| - 1].MessageItem? && item.MessageItem? {
      var front := merged[..|merged| - 1];
      CallNamesSnoc(front, MessageItem(item.role, merged[|merged| - 1].parts + item.parts));
      Sequences.ConcatEmpty(CallNames(front));
    } else {
      CallNamesSnoc(merged, item);
    }
  }

  /** The calls' names agree exactly if each survives. */
  lemma {:induction false} NamesAgree(c: Reducer.Context, told: seq<Told>)
    ensures |CallNames(UpstreamItems(c, told))| == |CallNames(RestoredItems(c, told))|
    ensures CallNames(UpstreamItems(c, told)) == CallNames(RestoredItems(c, told)) <==> NamesSurvive(c, told)
  {
    if told != [] {
      var before, last := told[..|told| - 1], told[|told| - 1];
      NamesAgree(c, before);
      ItemsSnoc(c, told);
      CallNamesSnoc(UpstreamItems(c, before), UpstreamItem(c, last));
      CallNamesSnoc(RestoredItems(c, before), RestoredItem(c, last));
      SurviveSnoc(c, told);
      LastNamesAgree(c, CallNames(UpstreamItems(c, before)), CallNames(RestoredItems(c, before)), last);
    }
  }

  lemma ItemsSnoc(c: Reducer.Context, told: seq<Told>)
    requires told != []
    ensures
      var before, last := told[..|told| - 1], told[|told| - 1];
      && UpstreamItems(c, told) == UpstreamItems(c, before) + [UpstreamItem(c, last)]
      && RestoredItems(c, told) == RestoredItems(c, before) + [RestoredItem(c, last)]
  {
  }

  lemma LastNamesAgree(c: Reducer.Context, a: seq<string>, b: seq<string>, last: Told)
    requires |a| == |b|
    ensures
      var a' := a + (if UpstreamItem(c, last).FunctionCall? then [UpstreamItem(c, last).name] else []);
      var b' := b + (if RestoredItem(c, last).FunctionCall? then [RestoredItem(c, last).name] else []);
      && |a'| == |b'|
      && (a' == b' <==>
        a == b && (last.ToldTool? ==> c.toolNames.CodexName(c.toolNames.AnthropicName(last.name)) == last.name))
  {
    if last.ToldTool? {
      LastNames(a, b, last.name, c.toolNames.CodexName(c.toolNames.AnthropicName(last.name)));
    } else {
      Sequences.ConcatEmpty(a);
      Sequences.ConcatEmpty(b);
    }
  }

  lemma LastNames(a: seq<string>, b: seq<string>, x: string, y: string)
    requires |a| == |b|
    ensures a + [x] == b + [y] <==> a == b && x == y
  {
    if a + [x] == b + [y] {
      assert a == (a + [x])[..|a|] && b == (b + [y])[..|b|];
      assert (a + [x])[|a|] == (b + [y])[|b|];
    }
  }

  ghost predicate NamesSurvive(c: Reducer.Context, told: seq<Told>) {
    forall t | t in told && t.ToldTool? :: c.toolNames.CodexName(c.toolNames.AnthropicName(t.name)) == t.name
  }

  lemma SurviveSnoc(c: Reducer.Context, told: seq<Told>)
    requires told != []
    ensures
      var last := told[|told| - 1];
      NamesSurvive(c, told) <==>
        && NamesSurvive(c, told[..|told| - 1])
        && (last.ToldTool? ==> c.toolNames.CodexName(c.toolNames.AnthropicName(last.name)) == last.name)
  {
    Sequences.Unsnoc(told);
  }

  /** A call under the one name that Codex reserves. */
  predicate CallsReserved(told: seq<Told>) {
    exists t | t in told :: t.ToldTool? && t.name == RESERVED
  }

  lemma SurviveUnlessReserved(c: Reducer.Context, names: set<string>, told: seq<Told>)
    requires Built(c.toolNames, names)
    ensures NamesSurvive(c, told) <==> !(RESERVED in names && CallsReserved(told))
  {
    forall t | t in told && t.ToldTool?
      ensures c.toolNames.CodexName(c.toolNames.AnthropicName(t.name)) == t.name <==> !(RESERVED in names && t.name == RESERVED)
    {
      UpstreamNameSurvives(c.toolNames, names, t.name);
    }
  }

  lemma RestoredIsUpstream(c: Reducer.Context, names: set<string>, told: seq<Told>, input: seq<InputItem>)
    requires Built(c.toolNames, names)
    ensures
      input + Merge(RestoredItems(c, told)) == input + Merge(UpstreamItems(c, told))
      <==> !(RESERVED in names && CallsReserved(told))
  {
    SurviveUnlessReserved(c, names, told);
    NamesAgree(c, told);
    MergeKeepsNames(RestoredItems(c, told));
    MergeKeepsNames(UpstreamItems(c, told));
    if NamesSurvive(c, told) {
      assert RestoredItems(c, told) == UpstreamItems(c, told);
    } else {
      SameFront(input, Merge(RestoredItems(c, told)), Merge(UpstreamItems(c, told)));
    }
  }

  lemma SameFront(front: seq<InputItem>, a: seq<InputItem>, b: seq<InputItem>)
    ensures front + a == front + b ==> a == b
  {
    if front + a == front + b {
      assert a == (front + a)[|front|..] && b == (front + b)[|front|..];
    }
  }

  // ---------- The round trip ----------

  lemma RestoresHeld(c: Reducer.Context, es: seq<UpstreamEvent>, size: Response -> nat, start: Turn)
    requires c.signer.Lawful()
    requires RunAll(c, es).Ok? && RunAll(c, es).value.state.completed
    requires NonstreamResponse(c, RunAll(c, es).value.state, size).Ok?
    requires Fits(c, RunAll(c, es).value.state, start)
    ensures ReplayTurn.Finished(c, RunAll(c, es).value.state)
    ensures
      var s := RunAll(c, es).value.state;
      var content := NonstreamResponse(c, s, size).value.content;
      var r := HistoryTranslation.TranslateMessage(c, start, Assistant, Replay(content));
      && (r.Ok? <==> ClosersFollow(s))
      && (r.Ok? ==>
        && r.value.input == start.input + Merge(Originals(c, s, |s.blockOrder|))
        && r.value.calls == start.calls + Calls(s, |s.blockOrder|))
  {
    RunKeeps(c, es);
    ReachableIsFollowed(c, es);
    var e := RunAll(c, es).value;
    CompletedAnswer(c, e.state, Run(Initial, e.out).value, Assemble(EmptyMessage, e.out), size);
    TurnRestores(c, e.state, Replay(Contents(c, e.state, 0)), start);
  }

  /**
    Handing back the answer of a completed run opens every signature exactly when each call whose registration closed
    a reasoning item was the next item to open a block. Then the turn is the items the events told of, in the order in
    which they were completed: texts, reasoning ids with their summaries and ciphertext, calls with their ids and
    parsed arguments. Names come back too, unless upstream called the reserved name and the request declares it.
   */
  lemma ReplayRestoresUpstream(
      c: Reducer.Context, es: seq<UpstreamEvent>, names: set<string>, size: Response -> nat, start: Turn)
    requires c.signer.Lawful() && Built(c.toolNames, names)
    requires RunAll(c, es).Ok? && RunAll(c, es).value.state.completed
    requires NonstreamResponse(c, RunAll(c, es).value.state, size).Ok?
    requires Fits(c, RunAll(c, es).value.state, start)
    ensures
      var content := NonstreamResponse(c, RunAll(c, es).value.state, size).value.content;
      var r, told := HistoryTranslation.TranslateMessage(c, start, Assistant, Replay(content)), WholeAccount(es);
      && (r.Ok? <==> ClosersOpenNext(es))
      && (r.Ok? ==>
        && r.value.input == start.input + Merge(RestoredItems(c, told))
        && r.value.calls == start.calls + CallsTold(told)
        && (r.value.input == start.input + Merge(UpstreamItems(c, told)) <==> !(RESERVED in names && CallsReserved(told))))
  {
    var s := RunAll(c, es).value.state;
    RestoresHeld(c, es, size, start);
    RunHoldsAccount(c, es);
    RunWatches(c, es);
    OriginalsAreTold(c, es, s);
    CallsAreTold(c, es, s);
    RestoredIsUpstream(c, names, WholeAccount(es), start.input);
  }
}
