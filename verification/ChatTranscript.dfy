/** What an accepted history becomes: every call answered once, right after the turn that made it. */
module ChatTranscript {
  import opened Wrappers
  import Sequences
  import opened ChatSigning
  import opened ChatHistory

  function IdsOf(calls: seq<Call>): set<string> {
    set i | 0 <= i < |calls| :: calls[i].id
  }

  predicate DistinctCalls(calls: seq<Call>) {
    forall i, j | 0 <= i < j < |calls| :: calls[i].id != calls[j].id
  }

  /** The turns that answer some calls: one answer to each, and nothing else. */
  ghost predicate Answers(turns: seq<Turn>, ids: set<string>) {
    && |turns| == |ids|
    && (forall i | 0 <= i < |turns| :: turns[i].Answer? && turns[i].id in ids)
    && (forall i, j | 0 <= i < j < |turns| :: turns[i].Answer? && turns[j].Answer? ==> turns[i].id != turns[j].id)
  }

  /** Each reply's calls are distinct and answered exactly once each by the turns right after it, before any other. */
  ghost predicate WellAnswered(turns: seq<Turn>)
    decreases |turns|
  {
    turns == [] ||
    match turns[0]
    case Said(_, _) => WellAnswered(turns[1..])
    case Answer(_, _) => false
    case Reply(_, calls, _) =>
      var n := |IdsOf(calls)|;
      && DistinctCalls(calls) && n < |turns|
      && Answers(turns[1..1 + n], IdsOf(calls)) && WellAnswered(turns[1 + n..])
  }

  /** The calls still to be answered after one more turn; none if it comes at the wrong time. */
  function AfterTurn(ids: set<string>, t: Turn): Option<set<string>> {
    match t
    case Answer(id, _) => if id in ids then Some(ids - {id}) else None
    case Reply(_, calls, _) => if ids == {} && DistinctCalls(calls) then Some(IdsOf(calls)) else None
    case Said(_, _) => if ids == {} then Some({}) else None
  }

  function Awaiting(ids: set<string>, turns: seq<Turn>): Option<set<string>> {
    if turns == [] then Some(ids)
    else
      var left := Awaiting(ids, turns[..|turns| - 1]);
      if left.None? then None else AfterTurn(left.value, turns[|turns| - 1])
  }

  lemma {:induction false} AwaitingConcat(ids: set<string>, a: seq<Turn>, b: seq<Turn>)
    ensures Awaiting(ids, a + b) == if Awaiting(ids, a).None? then None else Awaiting(Awaiting(ids, a).value, b)
  {
    if b == [] {
      Sequences.ConcatEmpty(a);
    } else {
      AwaitingConcat(ids, a, b[..|b| - 1]);
      Sequences.ConcatLast(a, b);
    }
  }

  lemma AwaitingSnoc(ids: set<string>, turns: seq<Turn>, t: Turn)
    ensures
      Awaiting(ids, turns + [t]) == if Awaiting(ids, turns).None? then None else AfterTurn(Awaiting(ids, turns).value, t)
  {
    assert (turns + [t])[..|turns|] == turns;
  }

  lemma AwaitingOne(ids: set<string>, t: Turn)
    ensures Awaiting(ids, [t]) == AfterTurn(ids, t)
  {
    assert [t][..0] == [];
  }

  /** Turns after which nothing awaits an answer first answer what was awaited. */
  lemma {:induction false} AnswersComeFirst(ids: set<string>, turns: seq<Turn>)
    requires Awaiting(ids, turns) == Some({})
    ensures |ids| <= |turns| && Answers(turns[..|ids|], ids) && Awaiting({}, turns[|ids|..]) == Some({})
    decreases |turns|
  {
    if ids == {} {
      assert turns[0..] == turns && turns[..0] == [];
    } else {
      assert turns != [];
      var first, rest := turns[0], turns[1..];
      assert turns == [first] + rest;
      AwaitingConcat(ids, [first], rest);
      AwaitingOne(ids, first);
      var left := ids - {first.id};
      AnswersComeFirst(left, rest);
      assert |left| == |ids| - 1;
      assert turns[..|ids|] == [first] + rest[..|left|];
      assert turns[|ids|..] == rest[|left|..];
    }
  }

  lemma {:induction false} NothingAwaitedIsWellAnswered(turns: seq<Turn>)
    requires Awaiting({}, turns) == Some({})
    ensures WellAnswered(turns)
    decreases |turns|
  {
    if turns != [] {
      var first, rest := turns[0], turns[1..];
      assert turns == [first] + rest;
      AwaitingConcat({}, [first], rest);
      AwaitingOne({}, first);
      match first
      case Said(_, _) =>
        NothingAwaitedIsWellAnswered(rest);
      case Reply(_, calls, _) =>
        AnswersComeFirst(IdsOf(calls), rest);
        var n := |IdsOf(calls)|;
        NothingAwaitedIsWellAnswered(rest[n..]);
        assert turns[1..1 + n] == rest[..n] && turns[1 + n..] == rest[n..];
    }
  }

  // ---------- The translator ----------

  /** Midway through a message: the calls made and the answers given, against what is pending. */
  ghost predicate Tracks(st: State, role: Role, m: Midway) {
    && st.seen <= m.seen && m.pending <= m.seen
    && (role.Assistant? ==>
          && m.answers == [] && st.pending == {} && DistinctCalls(m.calls) && m.pending == IdsOf(m.calls)
          && forall i | 0 <= i < |m.calls| :: m.calls[i].id in m.seen)
    && (role.User? ==> m.calls == [] && m.bindings == [] && Awaiting(st.pending, m.answers) == Some(m.pending))
    && (forall t | t in m.answers :: t.Answer?)
  }

  lemma BlockTracks(c: Context, st: State, role: Role, m: Midway, b: Block)
    requires Tracks(st, role, m) && OnBlock(c, role, m, b).Ok?
    ensures Tracks(st, role, OnBlock(c, role, m, b).value)
  {
    var m' := OnBlock(c, role, m, b).value;
    if b.ToolUseBlock? {
      var call := m'.calls[|m.calls|];
      assert m'.calls == m.calls + [call];
      assert call.id == b.id.value;
      IdsSnoc(m.calls, call);
    } else if b.ToolResultBlock? {
      AwaitingSnoc(st.pending, m.answers, Answer(b.id.value, b.output.value));
    }
  }

  lemma IdsSnoc(calls: seq<Call>, call: Call)
    ensures IdsOf(calls + [call]) == IdsOf(calls) + {call.id}
    ensures DistinctCalls(calls) && call.id !in IdsOf(calls) ==> DistinctCalls(calls + [call])
  {
    var all := calls + [call];
    forall id ensures id in IdsOf(all) <==> id in IdsOf(calls) + {call.id} {
      if id in IdsOf(calls) {
        var i :| 0 <= i < |calls| && calls[i].id == id;
        assert all[i].id == id;
      }
      if id == call.id {
        assert all[|calls|].id == id;
      }
    }
  }

  lemma {:induction false} BlocksTrack(c: Context, st: State, role: Role, blocks: seq<Block>)
    requires st.pending <= st.seen && (role.Assistant? ==> st.pending == {})
    requires OnBlocks(c, role, Begin(st), blocks).Ok?
    ensures Tracks(st, role, OnBlocks(c, role, Begin(st), blocks).value)
  {
    if blocks != [] {
      BlocksTrack(c, st, role, blocks[..|blocks| - 1]);
      BlockTracks(c, st, role, OnBlocks(c, role, Begin(st), blocks[..|blocks| - 1]).value, blocks[|blocks| - 1]);
    }
  }

  ghost predicate Follows(st: State) {
    st.pending <= st.seen && Awaiting({}, st.turns) == Some(st.pending)
  }

  lemma MessageFollows(c: Context, st: State, msg: Message)
    requires Follows(st) && OnMessage(c, st, msg).Ok?
    ensures Follows(OnMessage(c, st, msg).value)
  {
    var role := msg.role.value;
    match msg.content
    case TextContent(text) =>
      AwaitingSnoc({}, st.turns, Said(role, text));
    case Blocks(blocks) =>
      BlocksTrack(c, st, role, blocks);
      ConcludeFollows(c, st, role, OnBlocks(c, role, Begin(st), blocks).value);
    case _ =>
  }

  lemma ConcludeFollows(c: Context, st: State, role: Role, m: Midway)
    requires Follows(st) && Tracks(st, role, m) && Conclude(c, st, role, m).Ok?
    ensures Follows(Conclude(c, st, role, m).value)
  {
    var next := Conclude(c, st, role, m).value;
    if role.Assistant? {
      var reply := next.turns[|st.turns|];
      assert next.turns == st.turns + [reply];
      AwaitingSnoc({}, st.turns, reply);
    } else {
      AwaitingConcat({}, st.turns, m.answers);
      if m.answers == [] || m.text != "" {
        assert next.turns == st.turns + m.answers + [Said(User, m.text)];
        AwaitingSnoc({}, st.turns + m.answers, Said(User, m.text));
        if m.answers == [] {
          assert Awaiting(st.pending, []) == Some(st.pending);
        }
        if st.pending == {} {
          NothingToAnswer(m.answers);
        }
      } else {
        assert next.turns == st.turns + m.answers + [];
        assert st.turns + m.answers + [] == st.turns + m.answers;
      }
    }
  }

  /** When nothing awaits an answer, there are no answers. */
  lemma {:induction false} NothingToAnswer(answers: seq<Turn>)
    requires Awaiting({}, answers).Some? && forall t | t in answers :: t.Answer?
    ensures Awaiting({}, answers) == Some({})
  {
    if answers != [] {
      assert answers[|answers| - 1] in answers;
      NothingToAnswer(answers[..|answers| - 1]);
    }
  }

  lemma {:induction false} MessagesFollow(c: Context, messages: seq<Message>)
    requires OnMessages(c, messages).Ok?
    ensures Follows(OnMessages(c, messages).value)
  {
    if messages != [] {
      MessagesFollow(c, messages[..|messages| - 1]);
      MessageFollows(c, OnMessages(c, messages[..|messages| - 1]).value, messages[|messages| - 1]);
    }
  }

  /** An accepted history becomes a transcript whose calls are answered once each, at once. */
  lemma AcceptedIsWellAnswered(c: Context, messages: seq<Message>)
    requires Transcript(c, messages).Ok?
    ensures WellAnswered(Transcript(c, messages).value)
  {
    MessagesFollow(c, messages);
    NothingAwaitedIsWellAnswered(OnMessages(c, messages).value.turns);
  }
}
