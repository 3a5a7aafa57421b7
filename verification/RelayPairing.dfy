/** The relay's check of tool calls, message by message and without a running state. */
module RelayPairing {
  import opened Wrappers
  import Sequences
  import opened Utf8
  import opened ChatHistory
  import opened RelayHistory

  // ---------- A message ----------

  function BlocksIn(msg: Message): seq<Block> {
    if msg.content.Blocks? then msg.content.blocks else []
  }

  /** An id or name: something, at most 256 bytes. */
  predicate Short(s: Option<string>) {
    s.Some? && 0 < |s.value| && ByteLen(s.value) <= 256
  }

  /** A reply calls but does not answer, a user answers but does not call, and what they call or answer has an id. */
  predicate WellFormed(role: Role, b: Block) {
    match b
    case ToolUseBlock(id, name, input) =>
      role.Assistant? && Short(id) && Short(name) && input.Some? && input.value.JObject?
    case ToolResultBlock(id, _) => role.User? && Short(id)
    case _ => true
  }

  function IdsOf(blocks: seq<Block>): seq<string> {
    if blocks == [] then []
    else
      var last := blocks[|blocks| - 1];
      IdsOf(blocks[..|blocks| - 1])
      + (if (last.ToolUseBlock? || last.ToolResultBlock?) && last.id.Some? then [last.id.value] else [])
  }

  predicate Sound(msg: Message) {
    && msg.role.Some? && !msg.content.BadContent? && |BlocksIn(msg)| <= 1024
    && forall i | 0 <= i < |BlocksIn(msg)| :: WellFormed(msg.role.value, BlocksIn(msg)[i])
  }

  ghost predicate NoneTwice(ids: seq<string>) {
    forall i, j | 0 <= i < j < |ids| :: ids[i] != ids[j]
  }

  ghost function Set(ids: seq<string>): set<string> {
    set id | id in ids
  }

  // ---------- A history ----------

  predicate From(msg: Message, role: Role) {
    msg.role == Some(role)
  }

  /** The calls of the message just before, if it is a reply. */
  ghost function Asked(messages: seq<Message>, i: nat): set<string>
    requires i <= |messages|
  {
    if i > 0 && From(messages[i - 1], Assistant) then Set(IdsOf(BlocksIn(messages[i - 1]))) else {}
  }

  /** The ids called in the first messages, in order. */
  function Called(messages: seq<Message>): seq<string> {
    if messages == [] then []
    else
      var last := messages[|messages| - 1];
      Called(messages[..|messages| - 1]) + (if From(last, Assistant) then IdsOf(BlocksIn(last)) else [])
  }

  /** Every user message answers just the calls before it, each once; a reply comes when nothing is asked. */
  ghost predicate Answers(messages: seq<Message>, i: nat)
    requires i < |messages|
  {
    if From(messages[i], User) then
      var ids := IdsOf(BlocksIn(messages[i]));
      NoneTwice(ids) && Set(ids) == Asked(messages, i)
    else Asked(messages, i) == {}
  }

  ghost predicate AllAnswer(messages: seq<Message>) {
    forall i | 0 <= i < |messages| :: Sound(messages[i]) && Answers(messages, i)
  }

  ghost predicate Paired(messages: seq<Message>) {
    AllAnswer(messages) && NoneTwice(Called(messages))
  }

  // ---------- Block by block ----------

  lemma TwiceSnoc(ids: seq<string>, id: string)
    ensures NoneTwice(ids + [id]) <==> NoneTwice(ids) && id !in ids
    ensures Set(ids + [id]) == Set(ids) + {id}
  {
    var all := ids + [id];
    if NoneTwice(all) {
      assert forall i | 0 <= i < |ids| :: all[i] == ids[i] && all[i] != all[|ids|];
    }
    assert forall x :: x in all <==> x in ids || x == id;
  }

  ghost predicate AllWellFormed(role: Role, blocks: seq<Block>) {
    forall i | 0 <= i < |blocks| :: WellFormed(role, blocks[i])
  }

  lemma WellFormedSnoc(role: Role, blocks: seq<Block>)
    requires blocks != []
    ensures
      AllWellFormed(role, blocks)
      <==> AllWellFormed(role, blocks[..|blocks| - 1]) && WellFormed(role, blocks[|blocks| - 1])
  {
    assert forall i | 0 <= i < |blocks| - 1 :: blocks[..|blocks| - 1][i] == blocks[i];
  }

  lemma NoneTwiceInFront(a: seq<string>, b: seq<string>)
    requires NoneTwice(a + b)
    ensures NoneTwice(a)
  {
    assert forall i | 0 <= i < |a| :: (a + b)[i] == a[i];
  }

  /** A reply's calls are accepted exactly if none is a call made before or twice. */
  lemma {:induction false} CallsPair(r: Relay, blocks: seq<Block>, before: seq<string>)
    requires r.seen == Set(before) && NoneTwice(before)
    ensures
      OnCalls(r, blocks).Ok? <==> AllWellFormed(Assistant, blocks) && NoneTwice(before + IdsOf(blocks))
    ensures OnCalls(r, blocks).Ok? ==>
      OnCalls(r, blocks).value == Relay(Set(before + IdsOf(blocks)), r.pending + Set(IdsOf(blocks)))
  {
    if blocks == [] {
      Sequences.ConcatEmpty(before);
    } else {
      var front, b := blocks[..|blocks| - 1], blocks[|blocks| - 1];
      CallsPair(r, front, before);
      WellFormedSnoc(Assistant, blocks);
      if b.ToolUseBlock? && b.id.Some? {
        Sequences.Associate(before, IdsOf(front), [b.id.value]);
        TwiceSnoc(before + IdsOf(front), b.id.value);
        TwiceSnoc(IdsOf(front), b.id.value);
      } else if b.ToolResultBlock? && b.id.Some? {
        Sequences.Associate(before, IdsOf(front), [b.id.value]);
      } else {
        Sequences.ConcatEmpty(IdsOf(front));
      }
      if NoneTwice(before + IdsOf(blocks)) && IdsOf(blocks) != IdsOf(front) {
        NoneTwiceInFront(before + IdsOf(front), [b.id.value]);
      }
    }
  }

  /** A user's results are accepted exactly if each answers a call that is asked, and none does twice. */
  lemma {:induction false} ResultsPair(pending: set<string>, blocks: seq<Block>)
    ensures
      OnResults(pending, blocks).Ok?
      <==> AllWellFormed(User, blocks) && NoneTwice(IdsOf(blocks)) && Set(IdsOf(blocks)) <= pending
    ensures OnResults(pending, blocks).Ok? ==> OnResults(pending, blocks).value == Set(IdsOf(blocks))
  {
    if blocks != [] {
      var front, b := blocks[..|blocks| - 1], blocks[|blocks| - 1];
      ResultsPair(pending, front);
      WellFormedSnoc(User, blocks);
      if (b.ToolUseBlock? || b.ToolResultBlock?) && b.id.Some? {
        TwiceSnoc(IdsOf(front), b.id.value);
      } else {
        Sequences.ConcatEmpty(IdsOf(front));
      }
    }
  }

  // ---------- Message by message ----------

  lemma BlocksAre(msg: Message)
    ensures BlocksOf(msg.content) == if msg.content.BadContent? then None else Some(BlocksIn(msg))
  {
  }

  lemma AskedBefore(messages: seq<Message>, i: nat, n: nat)
    requires i <= n <= |messages|
    ensures Asked(messages[..n], i) == Asked(messages, i)
  {
  }

  lemma AnswersBefore(messages: seq<Message>, i: nat, n: nat)
    requires i < n <= |messages|
    ensures Answers(messages[..n], i) <==> Answers(messages, i)
  {
    AskedBefore(messages, i, n);
  }

  lemma AllAnswerFront(messages: seq<Message>)
    requires messages != []
    ensures
      var n := |messages| - 1;
      AllAnswer(messages) <==> AllAnswer(messages[..n]) && Sound(messages[n]) && Answers(messages, n)
  {
    var n := |messages| - 1;
    forall i | 0 <= i < n
      ensures Sound(messages[..n][i]) && Answers(messages[..n], i) <==> Sound(messages[i]) && Answers(messages, i)
    {
      AnswersBefore(messages, i, n);
    }
  }

  lemma CalledFront(messages: seq<Message>)
    requires messages != [] && NoneTwice(Called(messages))
    ensures NoneTwice(Called(messages[..|messages| - 1]))
  {
    var front, last := messages[..|messages| - 1], messages[|messages| - 1];
    Sequences.ConcatEmpty(Called(front));
    if From(last, Assistant) {
      NoneTwiceInFront(Called(front), IdsOf(BlocksIn(last)));
    }
  }

  lemma PairedFront(messages: seq<Message>)
    requires messages != []
    ensures
      var n := |messages| - 1;
      Paired(messages)
      <==> Paired(messages[..n]) && Sound(messages[n]) && Answers(messages, n) && NoneTwice(Called(messages))
  {
    AllAnswerFront(messages);
    if NoneTwice(Called(messages)) {
      CalledFront(messages);
    }
  }

  lemma MessagePairs(r: Relay, msg: Message, before: seq<string>)
    requires r.seen == Set(before) && NoneTwice(before)
    ensures
      OnRelayMessage(r, msg).Ok?
      <==> && Sound(msg)
           && if From(msg, User) then NoneTwice(IdsOf(BlocksIn(msg))) && Set(IdsOf(BlocksIn(msg))) == r.pending
              else r.pending == {} && NoneTwice(before + IdsOf(BlocksIn(msg)))
    ensures OnRelayMessage(r, msg).Ok? ==>
      OnRelayMessage(r, msg).value
      == if From(msg, User) then Relay(Set(before), {})
         else Relay(Set(before + IdsOf(BlocksIn(msg))), Set(IdsOf(BlocksIn(msg))))
  {
    BlocksAre(msg);
    if msg.role == Some(User) {
      ResultsPair(r.pending, BlocksIn(msg));
    } else if msg.role == Some(Assistant) {
      CallsPair(r, BlocksIn(msg), before);
    }
  }

  lemma {:induction false} MessagesPair(messages: seq<Message>)
    ensures OnRelayMessages(messages).Ok? <==> Paired(messages)
    ensures OnRelayMessages(messages).Ok? ==>
      OnRelayMessages(messages).value == Relay(Set(Called(messages)), Asked(messages, |messages|))
  {
    if messages == [] {
      assert Set([]) == {};
    } else {
      var n := |messages| - 1;
      var front, last := messages[..n], messages[n];
      MessagesPair(front);
      PairedFront(messages);
      AskedBefore(messages, n, n);
      Sequences.ConcatEmpty(Called(front));
      if OnRelayMessages(front).Ok? {
        MessagePairs(OnRelayMessages(front).value, last, Called(front));
      }
    }
  }

  /**
    The relay accepts a history exactly if each message is sound, no call id is used twice, each user message answers
    the calls of the reply just before it and nothing else, each once, and no calls are left unanswered by whatever
    follows them, or by nothing following.
   */
  lemma ValidIffPaired(messages: seq<Message>)
    ensures Valid(messages) <==> Paired(messages) && Asked(messages, |messages|) == {}
  {
    MessagesPair(messages);
  }
}
