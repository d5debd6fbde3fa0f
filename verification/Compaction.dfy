/** Context compaction (src/agent/brain/_common.py:28-111) and the tool loop of the Claude
    brain that calls it before every request (src/agent/brain/claude.py:226-307). */
module Compaction {
  import opened Sequences

  datatype Role = System | User | Assistant | OtherRole

  datatype SubBlock = SubText(text: string) | SubOther

  /** A block of a message; blocks of a response are the client library's own objects. */
  datatype Block =
    | Text(text: string)
    | Image
    | ToolResultText(text: string)
    | ToolResultBlocks(subs: seq<SubBlock>)
    | ToolResultOther
    | OtherBlock
    | Foreign(block: ResponseBlock)

  datatype Content = NoContent | Str(text: string) | Blocks(blocks: seq<Block>) | OtherContent

  datatype Message = Message(role: Role, content: Content)

  // desktop actions are opaque here
  type Action = nat

  /** A tool call with the actions it queues and the text of its result. */
  datatype ResponseBlock = ToolUse(actions: seq<Action>, result: string) | Prose

  datatype Reply = Reply(blocks: seq<ResponseBlock>, endTurn: bool) | Failed

  // --- the estimate ------------------------------------------------------------------------

  const CHARS_PER_TOKEN: nat := 4
  const IMAGE_TOKENS: nat := 500
  const OVERHEAD: nat := 4

  function TextCost(text: string): nat {
    |text| / CHARS_PER_TOKEN
  }

  function SubsCost(subs: seq<SubBlock>): nat {
    if subs == [] then 0
    else
      var sub := subs[|subs| - 1];
      SubsCost(subs[..|subs| - 1]) + if sub.SubText? then TextCost(sub.text) else 0
  }

  function BlockCost(b: Block): nat {
    match b
    case Text(t) => TextCost(t)
    case Image => IMAGE_TOKENS
    case ToolResultText(t) => TextCost(t)
    case ToolResultBlocks(subs) => SubsCost(subs)
    case _ => 0
  }

  function BlocksCost(blocks: seq<Block>): nat {
    if blocks == [] then 0 else BlocksCost(blocks[..|blocks| - 1]) + BlockCost(blocks[|blocks| - 1])
  }

  function MessageCost(m: Message): nat {
    OVERHEAD +
    match m.content
    case Str(t) => TextCost(t)
    case Blocks(bs) => BlocksCost(bs)
    case _ => 0
  }

  function Cost(messages: seq<Message>): nat {
    if messages == [] then 0 else Cost(messages[..|messages| - 1]) + MessageCost(messages[|messages| - 1])
  }

  lemma CostOfOne(m: Message)
    ensures Cost([]) == 0 && Cost([m]) == MessageCost(m)
  {
    assert [m][..0] == [];
  }

  lemma BlocksCostOfOne(b: Block)
    ensures BlocksCost([]) == 0 && BlocksCost([b]) == BlockCost(b)
  {
    assert [b][..0] == [];
  }

  /** The estimate of one message, in numbers: four, and for each piece of text a quarter of its
      length, for each image five hundred, for anything else nothing. */
  lemma CostInNumbers(role: Role, text: string, block: ResponseBlock)
    ensures Cost([]) == 0 && Cost([Message(role, NoContent)]) == 4 && Cost([Message(role, OtherContent)]) == 4
    ensures Cost([Message(role, Str(text))]) == 4 + |text| / 4
    ensures Cost([Message(role, Blocks([]))]) == 4
    ensures Cost([Message(role, Blocks([Text(text)]))]) == 4 + |text| / 4
    ensures Cost([Message(role, Blocks([Image]))]) == 504
    ensures Cost([Message(role, Blocks([ToolResultText(text)]))]) == 4 + |text| / 4
    ensures Cost([Message(role, Blocks([ToolResultBlocks([SubText(text)])]))]) == 4 + |text| / 4
    ensures Cost([Message(role, Blocks([ToolResultBlocks([SubOther])]))]) == 4
    ensures forall b :: b in {ToolResultOther, OtherBlock, Foreign(block), ToolResultBlocks([])} ==>
              Cost([Message(role, Blocks([b]))]) == 4
  {
    SubsCostOfOne(SubText(text));
    SubsCostOfOne(SubOther);
    forall m
      ensures Cost([]) == 0 && Cost([m]) == MessageCost(m)
    {
      CostOfOne(m);
    }
    forall b
      ensures BlocksCost([]) == 0 && BlocksCost([b]) == BlockCost(b)
    {
      BlocksCostOfOne(b);
    }
    assert SubsCost([]) == 0;
    hide Cost, BlocksCost, SubsCost;
  }

  lemma SubsCostOfOne(sub: SubBlock)
    ensures SubsCost([sub]) == if sub.SubText? then TextCost(sub.text) else 0
  {
    assert [sub][..0] == [];
  }

  /** Blocks add up, and so do the parts of a tool result. */
  lemma {:induction false} BlocksCostConcat(a: seq<Block>, b: seq<Block>)
    ensures BlocksCost(a + b) == BlocksCost(a) + BlocksCost(b)
  {
    if b == [] {
      assert a + b == a;
    } else {
      assert (a + b)[..|a + b| - 1] == a + b[..|b| - 1];
      BlocksCostConcat(a, b[..|b| - 1]);
    }
  }

  lemma {:induction false} SubsCostConcat(a: seq<SubBlock>, b: seq<SubBlock>)
    ensures SubsCost(a + b) == SubsCost(a) + SubsCost(b)
  {
    if b == [] {
      assert a + b == a;
    } else {
      assert (a + b)[..|a + b| - 1] == a + b[..|b| - 1];
      SubsCostConcat(a, b[..|b| - 1]);
    }
  }

  method EstimateSubs(subs: seq<SubBlock>) returns (total: nat)
    ensures total == SubsCost(subs)
  {
    total := 0;
    for i := 0 to |subs|
      invariant total == SubsCost(subs[..i])
    {
      assert subs[..i + 1][..i] == subs[..i];
      if subs[i].SubText? {
        total := total + TextCost(subs[i].text);
      }
    }
    assert subs[..|subs|] == subs;
  }

  method EstimateBlocks(blocks: seq<Block>) returns (total: nat)
    ensures total == BlocksCost(blocks)
  {
    total := 0;
    for i := 0 to |blocks|
      invariant total == BlocksCost(blocks[..i])
    {
      assert blocks[..i + 1][..i] == blocks[..i];
      match blocks[i]
      case Text(t) => total := total + TextCost(t);
      case Image => total := total + IMAGE_TOKENS;
      case ToolResultText(t) => total := total + TextCost(t);
      case ToolResultBlocks(subs) =>
        var n := EstimateSubs(subs);
        total := total + n;
      case _ =>
    }
    assert blocks[..|blocks|] == blocks;
  }

  method EstimateTokens(messages: seq<Message>) returns (total: nat)
    ensures total == Cost(messages)
  {
    total := 0;
    for i := 0 to |messages|
      invariant total == Cost(messages[..i])
    {
      assert messages[..i + 1][..i] == messages[..i];
      match messages[i].content {
        case NoContent =>
          total := total + OVERHEAD;
          continue;
        case Str(t) => total := total + TextCost(t);
        case Blocks(bs) =>
          var n := EstimateBlocks(bs);
          total := total + n;
        case OtherContent =>
      }
      total := total + OVERHEAD;
    }
    assert messages[..|messages|] == messages;
  }

  // --- what is kept --------------------------------------------------------------------------

  /** The number of rounds: a round starts at each user message. */
  function Users(s: seq<Message>): nat {
    if s == [] then 0 else (if s[0].role == User then 1 else 0) + Users(s[1..])
  }

  /** The suffix that starts at a user message and holds exactly `n` of them. */
  function LastRounds(s: seq<Message>, n: nat): seq<Message> {
    if s == [] || (s[0].role == User && Users(s) <= n) then s else LastRounds(s[1..], n)
  }

  function SystemPart(messages: seq<Message>): seq<Message> {
    if messages != [] && messages[0].role == System then messages[..1] else []
  }

  function Rest(messages: seq<Message>): seq<Message> {
    messages[|SystemPart(messages)|..]
  }

  /** The rounds that survive when there are `rounds` of them: asked to keep none, the code
      keeps all, because its negative index is then zero. */
  function Kept(keep: nat, rounds: nat): nat {
    if keep == 0 || rounds <= keep then rounds else keep
  }

  function Compact(messages: seq<Message>, keep: nat, budget: nat): seq<Message> {
    var rounds := Users(Rest(messages));
    if Cost(messages) <= budget || rounds == 0 then messages
    else SystemPart(messages) + LastRounds(Rest(messages), Kept(keep, rounds))
  }

  /** The positions of the user messages. */
  ghost predicate RoundStarts(starts: seq<nat>, s: seq<Message>) {
    |starts| == Users(s) && forall k :: 0 <= k < |starts| ==>
      starts[k] < |s| && s[starts[k]].role == User && Users(s[starts[k]..]) == |starts| - k
  }

  method CompactMessages(messages: seq<Message>, keep: nat, budget: nat) returns (kept: seq<Message>)
    ensures kept == Compact(messages, keep, budget)
  {
    var total := EstimateTokens(messages);
    if total <= budget {
      return messages;
    }
    if |messages| <= 1 {
      OneMessage(messages, keep);
      return messages;
    }
    var system, restStart := [], 0;
    if messages[0].role == System {
      system, restStart := messages[..1], 1;
    }
    var rest := messages[restStart..];
    assert rest == Rest(messages) && system == SystemPart(messages);
    var starts := FindRounds(rest);
    if starts == [] {
      return messages;
    }
    var keepFrom :=
      if |starts| > keep then (if keep == 0 then starts[0] else starts[|starts| - keep]) else starts[0];
    CutIsLastRounds(rest, keepFrom, Kept(keep, |starts|));
    kept := system + rest[keepFrom..];
  }

  method FindRounds(rest: seq<Message>) returns (starts: seq<nat>)
    ensures RoundStarts(starts, rest)
  {
    starts := [];
    for i := 0 to |rest|
      invariant |starts| + Users(rest[i..]) == Users(rest)
      invariant forall k :: 0 <= k < |starts| ==>
                  starts[k] < i && rest[starts[k]].role == User && Users(rest[starts[k]..]) == Users(rest) - k
    {
      assert rest[i..][1..] == rest[i + 1..];
      if rest[i].role == User {
        starts := starts + [i];
      }
    }
  }

  lemma OneMessage(messages: seq<Message>, keep: nat)
    requires |messages| <= 1
    ensures var rounds := Users(Rest(messages));
            rounds > 0 ==> SystemPart(messages) + LastRounds(Rest(messages), Kept(keep, rounds)) == messages
  {
    if messages != [] && messages[0].role == System {
      assert Rest(messages) == [];
    }
  }

  /** There is one such suffix only. */
  lemma {:induction false} CutIsLastRounds(s: seq<Message>, cut: nat, n: nat)
    requires cut < |s| && s[cut].role == User && Users(s[cut..]) == n
    ensures LastRounds(s, n) == s[cut..]
  {
    if cut > 0 {
      assert s[cut..] == s[1..][cut - 1..];
      CutIsLastRounds(s[1..], cut - 1, n);
      if s[0].role == User {
        UsersFall(s[1..], cut - 1);
      }
    }
  }

  lemma {:induction false} UsersFall(s: seq<Message>, cut: nat)
    requires cut <= |s|
    ensures Users(s[cut..]) <= Users(s)
  {
    if cut > 0 {
      assert s[cut..] == s[1..][cut - 1..];
      UsersFall(s[1..], cut - 1);
    }
  }

  // --- what compaction promises ------------------------------------------------------------------

  /** With `1 <= n <= Users(s)` the suffix exists. */
  lemma {:induction false} LastRoundsIsSuffix(s: seq<Message>, n: nat) returns (cut: nat)
    requires 1 <= n <= Users(s)
    ensures cut < |s| && LastRounds(s, n) == s[cut..]
    ensures s[cut].role == User && Users(s[cut..]) == n
  {
    if s[0].role == User && Users(s) <= n {
      cut := 0;
    } else {
      var c := LastRoundsIsSuffix(s[1..], n);
      cut := c + 1;
      assert s[cut..] == s[1..][c..];
    }
  }

  lemma {:induction false} CostConcat(s: seq<Message>, t: seq<Message>)
    ensures Cost(s + t) == Cost(s) + Cost(t)
  {
    if t == [] {
      assert s + t == s;
    } else {
      assert (s + t)[..|s + t| - 1] == s + t[..|t| - 1];
      CostConcat(s, t[..|t| - 1]);
    }
  }

  /** The message list is its system part, then its rounds; when it is over budget and has a
      round, what is kept is the system part and a suffix that starts at a user message. */
  lemma CompactShape(messages: seq<Message>, keep: nat, budget: nat) returns (cut: nat)
    requires Cost(messages) > budget && Users(Rest(messages)) > 0
    ensures var rest := Rest(messages);
            && messages == SystemPart(messages) + rest
            && cut < |rest| && rest[cut].role == User
            && Users(rest[cut..]) == Kept(keep, Users(rest))
            && Compact(messages, keep, budget) == SystemPart(messages) + rest[cut..]
  {
    cut := LastRoundsIsSuffix(Rest(messages), Kept(keep, Users(Rest(messages))));
  }

  lemma CompactRest(messages: seq<Message>, keep: nat, budget: nat) returns (cut: nat)
    requires Cost(messages) > budget && Users(Rest(messages)) > 0
    ensures var rest := Rest(messages);
            && cut < |rest| && rest[cut].role == User && Users(rest[cut..]) == Kept(keep, Users(rest))
            && Rest(Compact(messages, keep, budget)) == rest[cut..]
            && SystemPart(Compact(messages, keep, budget)) == SystemPart(messages)
  {
    hide Compact, LastRounds, Users, Cost;
    cut := CompactShape(messages, keep, budget);
    PartsOf(messages, Rest(messages)[cut..]);
  }

  /** A system part and rounds are told apart again. */
  lemma PartsOf(messages: seq<Message>, rounds: seq<Message>)
    requires rounds != [] && rounds[0].role == User
    ensures Rest(SystemPart(messages) + rounds) == rounds
    ensures SystemPart(SystemPart(messages) + rounds) == SystemPart(messages)
  {}

  lemma SuffixCheaper(s: seq<Message>, cut: nat)
    requires cut <= |s|
    ensures Cost(s[cut..]) <= Cost(s)
  {
    hide Cost;
    CostConcat(s[..cut], s[cut..]);
    assert s == s[..cut] + s[cut..];
  }

  lemma UsersOfOne(m: Message)
    ensures Users([]) == 0 && Users([m]) == if m.role == User then 1 else 0
  {
    assert [m][1..] == [];
  }

  /** Rounds are counted message by message. */
  lemma {:induction false} UsersConcat(s: seq<Message>, t: seq<Message>)
    ensures Users(s + t) == Users(s) + Users(t)
  {
    if s == [] {
      assert s + t == t;
    } else {
      assert (s + t)[1..] == s[1..] + t;
      UsersConcat(s[1..], t);
    }
  }

  /** A system message at the head stays at the head; without one, whatever is compacted starts
      with a user message. */
  lemma SystemSurvives(messages: seq<Message>, keep: nat, budget: nat)
    requires messages != []
    ensures var once := Compact(messages, keep, budget);
            && once != []
            && (messages[0].role == System ==> once[0] == messages[0])
            && (messages[0].role != System && once != messages ==> once[0].role == User)
  {
    if Cost(messages) > budget && Users(Rest(messages)) > 0 {
      hide Compact, Cost, Users;
      var cut := CompactShape(messages, keep, budget);
    }
  }

  lemma NeverDearer(messages: seq<Message>, keep: nat, budget: nat)
    ensures Cost(Compact(messages, keep, budget)) <= Cost(messages)
  {
    if Cost(messages) > budget && Users(Rest(messages)) > 0 {
      hide Compact, Cost, Users, Rest, SystemPart;
      var cut := CompactShape(messages, keep, budget);
      CostConcat(SystemPart(messages), Rest(messages));
      CostConcat(SystemPart(messages), Rest(messages)[cut..]);
      SuffixCheaper(Rest(messages), cut);
    }
  }

  lemma Idempotent(messages: seq<Message>, keep: nat, budget: nat)
    ensures Compact(Compact(messages, keep, budget), keep, budget) == Compact(messages, keep, budget)
  {
    var once := Compact(messages, keep, budget);
    if once != messages {
      var cut := CompactRest(messages, keep, budget);
      hide Cost;
      CutIsLastRounds(Rest(once), 0, Users(Rest(once)));
    }
  }

  /** How many rounds survive, in every case: over budget, `keep` or all if there are fewer,
      and the system message stays. Rounds are dropped if and only if there are more than
      `keep > 0` of them. */
  lemma RoundsKept(messages: seq<Message>, keep: nat, budget: nat)
    ensures var once := Compact(messages, keep, budget);
            && SystemPart(once) == SystemPart(messages)
            && Users(Rest(once)) ==
                 (if Cost(messages) > budget && keep > 0 && Users(Rest(messages)) > keep then keep
                  else Users(Rest(messages)))
  {
    if Cost(messages) > budget && Users(Rest(messages)) > 0 {
      var cut := CompactRest(messages, keep, budget);
      hide Compact, Cost;
    }
  }

  // --- the tool loop ----------------------------------------------------------------------------

  const MAX_LOOP: nat := 20

  function AnswerOf(blocks: seq<ResponseBlock>): Message {
    Message(Assistant, Blocks(seq(|blocks|, i requires 0 <= i < |blocks| => Foreign(blocks[i]))))
  }

  /** The answer carries the response's own blocks, in order. */
  lemma AnswerCarries(blocks: seq<ResponseBlock>)
    ensures AnswerOf(blocks).role == Assistant && AnswerOf(blocks).content.Blocks?
    ensures var bs := AnswerOf(blocks).content.blocks;
            |bs| == |blocks| && forall i :: 0 <= i < |bs| ==> bs[i] == Foreign(blocks[i])
  {}

  function Results(blocks: seq<ResponseBlock>): seq<Block> {
    if blocks == [] then []
    else
      var b := blocks[|blocks| - 1];
      Results(blocks[..|blocks| - 1]) + if b.ToolUse? then [ToolResultBlocks([SubText(b.result)])] else []
  }

  function Queued(blocks: seq<ResponseBlock>): seq<Action> {
    if blocks == [] then []
    else
      var b := blocks[|blocks| - 1];
      Queued(blocks[..|blocks| - 1]) + if b.ToolUse? then b.actions else []
  }

  predicate GoesOn(r: Reply) {
    r.Reply? && !r.endTurn && Results(r.blocks) != []
  }

  /** The whole conversation when request `i` goes out, had nothing been compacted. */
  function Conversation(first: Message, replies: seq<Reply>, i: nat): seq<Message>
    requires i <= |replies|
  {
    if i == 0 then [first] else Conversation(first, replies, i - 1) + Exchange(BlocksOf(replies[i - 1]))
  }

  function BlocksOf(r: Reply): seq<ResponseBlock> {
    if r.Reply? then r.blocks else []
  }

  function Exchange(blocks: seq<ResponseBlock>): seq<Message> {
    [AnswerOf(blocks), Message(User, Blocks(Results(blocks)))]
  }

  function ActionsOf(replies: seq<Reply>): seq<Action> {
    if replies == [] then []
    else ActionsOf(replies[..|replies| - 1]) + Queued(BlocksOf(replies[|replies| - 1]))
  }

  function Flat(ss: seq<seq<Action>>): seq<Action> {
    if ss == [] then [] else Flat(ss[..|ss| - 1]) + ss[|ss| - 1]
  }

  function CallOf(): ResponseBlock -> Option<seq<Action>> {
    (b: ResponseBlock) => if b.ToolUse? then Some(b.actions) else None
  }

  function ResultOf(): ResponseBlock -> Option<Block> {
    (b: ResponseBlock) => if b.ToolUse? then Some(ToolResultBlocks([SubText(b.result)])) else None
  }

  function AllBlocks(replies: seq<Reply>): seq<ResponseBlock> {
    if replies == [] then [] else AllBlocks(replies[..|replies| - 1]) + BlocksOf(replies[|replies| - 1])
  }

  lemma {:induction false} FlatConcat(a: seq<seq<Action>>, b: seq<seq<Action>>)
    ensures Flat(a + b) == Flat(a) + Flat(b)
  {
    if b == [] {
      assert a + b == a;
    } else {
      assert (a + b)[..|a + b| - 1] == a + b[..|b| - 1];
      FlatConcat(a, b[..|b| - 1]);
    }
  }

  lemma FlatOne(x: seq<Action>)
    ensures Flat([]) == [] && Flat([x]) == x
  {
    assert [x][..0] == [];
  }

  /** A reply queues the actions of its tool calls in order, and is answered by one result for
      each of them, in order. */
  lemma {:induction false} CallsInOrder(blocks: seq<ResponseBlock>)
    ensures Queued(blocks) == Flat(Pick(CallOf(), blocks)) && Results(blocks) == Pick(ResultOf(), blocks)
  {
    if blocks != [] {
      var n := |blocks| - 1;
      CallsInOrder(blocks[..n]);
      var call := ToSeq(CallOf()(blocks[n]));
      assert Pick(CallOf(), blocks) == Pick(CallOf(), blocks[..n]) + call;
      hide Pick;
      FlatConcat(Pick(CallOf(), blocks[..n]), call);
      if blocks[n].ToolUse? {
        FlatOne(blocks[n].actions);
      } else {
        FlatOne([]);
      }
    }
  }

  /** All actions, over all replies. */
  lemma {:induction false} ActionsInOrder(replies: seq<Reply>)
    ensures ActionsOf(replies) == Flat(Pick(CallOf(), AllBlocks(replies)))
  {
    if replies == [] {
      FlatOne([]);
    } else {
      var n := |replies| - 1;
      ActionsInOrder(replies[..n]);
      CallsInOrder(BlocksOf(replies[n]));
      hide Pick, Flat, Queued, BlocksOf;
      PickConcat(CallOf(), AllBlocks(replies[..n]), BlocksOf(replies[n]));
      FlatConcat(Pick(CallOf(), AllBlocks(replies[..n])), Pick(CallOf(), BlocksOf(replies[n])));
    }
  }

  /** User and assistant in turn, a user message at both ends. */
  ghost predicate Alternates(s: seq<Message>) {
    |s| % 2 == 1 && forall i :: 0 <= i < |s| ==> s[i].role == if i % 2 == 0 then User else Assistant
  }

  /** What may stand for the conversation in a request: a suffix of it, still alternating,
      with at least its last `keep` rounds. */
  ghost predicate Stands(s: seq<Message>, full: seq<Message>, keep: nat) {
    && Alternates(s) && Alternates(full) && |s| <= |full| && s == full[|full| - |s|..]
    && Users(s) >= Kept(keep, Users(full))
  }

  lemma {:induction false} AlternatesUsers(s: seq<Message>)
    requires Alternates(s)
    ensures 2 * Users(s) == |s| + 1
  {
    if |s| == 1 {
      assert Users(s[1..]) == 0;
    } else {
      var t := s[2..];
      forall i | 0 <= i < |t|
        ensures t[i].role == if i % 2 == 0 then User else Assistant
      {
        assert t[i] == s[i + 2];
      }
      AlternatesUsers(t);
      assert s[1..][1..] == t && s[1].role == Assistant;
    }
  }

  lemma AlternatesTail(s: seq<Message>, cut: nat)
    requires Alternates(s) && cut < |s| && s[cut].role == User
    ensures Alternates(s[cut..])
  {
    forall i | 0 <= i < |s| - cut
      ensures s[cut..][i].role == if i % 2 == 0 then User else Assistant
    {
      assert s[cut..][i] == s[cut + i];
    }
  }

  lemma CompactStands(s: seq<Message>, full: seq<Message>, keep: nat, budget: nat)
    requires Stands(s, full, keep)
    ensures Stands(Compact(s, keep, budget), full, keep)
  {
    AlternatesUsers(s);
    AlternatesUsers(full);
    assert s[0].role == User;
    assert Rest(s) == s;
    if Cost(s) > budget {
      var cut := CompactShape(s, keep, budget);
      hide Compact, Users, Rest, Cost;
      AlternatesTail(s, cut);
      assert Compact(s, keep, budget) == s[cut..];
    }
  }

  lemma ExchangeStands(s: seq<Message>, full: seq<Message>, keep: nat, blocks: seq<ResponseBlock>)
    requires Stands(s, full, keep)
    ensures Stands(s + Exchange(blocks), full + Exchange(blocks), keep)
  {
    hide Alternates, Users, Exchange;
    AlternatesUsers(s);
    AlternatesUsers(full);
    AlternatesExchange(s, blocks);
    AlternatesExchange(full, blocks);
    AlternatesUsers(s + Exchange(blocks));
    AlternatesUsers(full + Exchange(blocks));
    SuffixMore(s, full, Exchange(blocks));
  }

  lemma SuffixMore(s: seq<Message>, full: seq<Message>, e: seq<Message>)
    requires |s| <= |full| && s == full[|full| - |s|..]
    ensures s + e == (full + e)[|full + e| - |s + e|..]
  {}

  lemma AlternatesExchange(s: seq<Message>, blocks: seq<ResponseBlock>)
    requires Alternates(s)
    ensures Alternates(s + Exchange(blocks)) && |Exchange(blocks)| == 2
  {
    hide Results;
  }

  lemma FirstStands(first: Message, replies: seq<Reply>, keep: nat)
    requires first.role == User
    ensures Stands([first], Conversation(first, replies, 0), keep)
  {}

  lemma ConversationNext(first: Message, replies: seq<Reply>, i: nat)
    requires i < |replies| && replies[i].Reply?
    ensures Conversation(first, replies, i + 1) == Conversation(first, replies, i) + Exchange(replies[i].blocks)
  {}

  lemma NoActions(replies: seq<Reply>)
    ensures ActionsOf(replies[..0]) == []
  {}

  lemma ActionsNext(replies: seq<Reply>, i: nat)
    requires i < |replies| && replies[i].Reply?
    ensures ActionsOf(replies[..i + 1]) == ActionsOf(replies[..i]) + Queued(replies[i].blocks)
  {
    assert replies[..i + 1][..i] == replies[..i];
  }

  /** The messages as they stand when request `i` is about to be compacted. */
  function Pending(first: Message, replies: seq<Reply>, sent: seq<seq<Message>>, i: nat): seq<Message>
    requires i <= |replies| && i <= |sent|
  {
    if i == 0 then [first] else sent[i - 1] + Exchange(BlocksOf(replies[i - 1]))
  }

  /** Over budget with more than `keep > 0` rounds, exactly the last `keep` are sent; otherwise
      everything is. */
  ghost predicate Trimmed(pending: seq<Message>, sent: seq<Message>, keep: nat, budget: nat) {
    if Cost(pending) > budget && 0 < keep < Users(pending)
    then Users(sent) == keep && |sent| <= |pending| && sent == pending[|pending| - |sent|..]
    else sent == pending
  }

  ghost predicate AllTrimmed(first: Message, replies: seq<Reply>, sent: seq<seq<Message>>, keep: nat, budget: nat)
    requires |sent| <= |replies|
  {
    forall i :: 0 <= i < |sent| ==> Trimmed(Pending(first, replies, sent, i), sent[i], keep, budget)
  }

  lemma NoneSent(first: Message, replies: seq<Reply>, keep: nat, budget: nat)
    ensures AllTrimmed(first, replies, [], keep, budget)
  {}

  lemma AllTrimmedMore(first: Message, replies: seq<Reply>, sent: seq<seq<Message>>, m: seq<Message>,
                       keep: nat, budget: nat)
    requires |sent| < |replies| && AllTrimmed(first, replies, sent, keep, budget)
    requires Trimmed(Pending(first, replies, sent, |sent|), m, keep, budget)
    ensures AllTrimmed(first, replies, sent + [m], keep, budget)
  {
    hide Trimmed, Pending;
    var more := sent + [m];
    forall i | 0 <= i < |more|
      ensures Trimmed(Pending(first, replies, more, i), more[i], keep, budget)
    {
      PendingSame(first, replies, sent, m, i);
      if i < |sent| {
        assert Trimmed(Pending(first, replies, sent, i), sent[i], keep, budget);
      }
    }
  }

  lemma PendingSame(first: Message, replies: seq<Reply>, sent: seq<seq<Message>>, m: seq<Message>, i: nat)
    requires i <= |sent| <= |replies|
    ensures Pending(first, replies, sent + [m], i) == Pending(first, replies, sent, i)
  {
    hide Exchange, BlocksOf;
  }

  lemma CompactTrims(s: seq<Message>, full: seq<Message>, keep: nat, budget: nat)
    requires Stands(s, full, keep)
    ensures Trimmed(s, Compact(s, keep, budget), keep, budget)
  {
    AlternatesUsers(s);
    assert s[0].role == User && Rest(s) == s;
    if Cost(s) > budget {
      var cut := CompactShape(s, keep, budget);
      hide Compact, Rest, Cost;
      assert Compact(s, keep, budget) == s[cut..];
      if Kept(keep, Users(s)) == Users(s) {
        hide Users;
        UsersOfCut(s, cut);
      }
    }
  }

  /** A suffix with all the rounds of a list that starts with one is the whole list. */
  lemma UsersOfCut(s: seq<Message>, cut: nat)
    requires cut < |s| && s[0].role == User && Users(s[cut..]) == Users(s)
    ensures cut == 0
  {
    if cut > 0 {
      assert s[1..][cut - 1..] == s[cut..];
      UsersFall(s[1..], cut - 1);
    }
  }

  /** `decide`: at most `MAX_LOOP` requests, each but the last answered by tool calls. Every
      request stands for the conversation so far; the actions are those of all the answers, in
      order. A request that fails raises, and nothing is returned. */
  method Decide(first: Message, replies: seq<Reply>, keep: nat, budget: nat)
    returns (sent: seq<seq<Message>>, actions: seq<Action>, raised: bool)
    requires first.role == User && |replies| == MAX_LOOP
    ensures 1 <= |sent| <= 20
    ensures forall i :: 0 <= i < |sent| ==> Stands(sent[i], Conversation(first, replies, i), keep)
    ensures AllTrimmed(first, replies, sent, keep, budget)
    ensures forall i :: 0 <= i < |sent| - 1 ==> GoesOn(replies[i])
    ensures |sent| < 20 ==> !GoesOn(replies[|sent| - 1])
    ensures raised == replies[|sent| - 1].Failed?
    ensures !raised ==> actions == Flat(Pick(CallOf(), AllBlocks(replies[..|sent|])))
  {
    hide Pick, Flat, AllBlocks, Stands, AllTrimmed, Trimmed, Conversation;
    hide Compact, Queued, Results, AnswerOf, ActionsOf;
    var messages := [first];
    sent, actions, raised := [], [], false;
    FirstStands(first, replies, keep);
    NoActions(replies);
    assert AllTrimmed(first, replies, [], keep, budget) by { NoneSent(first, replies, keep, budget); }
    for i := 0 to MAX_LOOP
      invariant |sent| == i && Stands(messages, Conversation(first, replies, i), keep)
      invariant forall j :: 0 <= j < i ==> Stands(sent[j], Conversation(first, replies, j), keep)
      invariant messages == Pending(first, replies, sent, i)
      invariant AllTrimmed(first, replies, sent, keep, budget)
      invariant forall j :: 0 <= j < i ==> GoesOn(replies[j])
      invariant actions == ActionsOf(replies[..i])
    {
      ActionsInOrder(replies[..i + 1]);
      CompactStands(messages, Conversation(first, replies, i), keep, budget);
      CompactTrims(messages, Conversation(first, replies, i), keep, budget);
      messages := CompactMessages(messages, keep, budget);
      AllTrimmedMore(first, replies, sent, messages, keep, budget);
      sent := sent + [messages];
      if replies[i].Failed? {
        return sent, [], true;
      }
      var queued, results := HandleBlocks(replies[i].blocks);
      ActionsNext(replies, i);
      actions := actions + queued;
      if replies[i].endTurn || results == [] {
        return;
      }
      ExchangeStands(messages, Conversation(first, replies, i), keep, replies[i].blocks);
      ConversationNext(first, replies, i);
      var before := messages;
      messages := messages + [AnswerOf(replies[i].blocks)];
      messages := messages + [Message(User, Blocks(results))];
      assert messages == before + Exchange(replies[i].blocks);
    }
    ActionsInOrder(replies[..MAX_LOOP]);
  }

  method HandleBlocks(blocks: seq<ResponseBlock>) returns (queued: seq<Action>, results: seq<Block>)
    ensures queued == Queued(blocks) && results == Results(blocks)
  {
    queued, results := [], [];
    for i := 0 to |blocks|
      invariant queued == Queued(blocks[..i]) && results == Results(blocks[..i])
    {
      assert blocks[..i + 1][..i] == blocks[..i];
      if blocks[i].ToolUse? {
        queued := queued + blocks[i].actions;
        results := results + [ToolResultBlocks([SubText(blocks[i].result)])];
      }
    }
    assert blocks[..|blocks|] == blocks;
  }
}
