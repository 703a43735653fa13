/**
 The Rust client's translation of a Claude conversation into the messages of the two
 other protocols: chat completions, where an assistant message carries its calls, and
 responses, where calls and outputs are items of their own.
 */
module Translate {
  import opened Sequences


  /** A content block; `input` is the JSON text of a call's arguments. Missing fields have their defaults. */
  datatype Block =
    | Text(text: string)
    | Thinking(thinking: string)
    | ToolUse(id: string, name: string, input: string)
    | ToolResult(toolUseId: string, output: string)
    | Image(media: string, data: string)
    | OtherBlock

  datatype Role = User | Assistant | OtherRole(name: string)

  datatype Content = Plain(text: string) | Blocks(blocks: seq<Block>) | NoContent

  datatype Message = Message(role: Role, content: Content)

  datatype Call = Call(id: string, name: string, arguments: string)

  datatype Result = Result(id: string, output: string)

  // ---------------------------------------------------------------- what a conversation says

  function CallsIn(blocks: seq<Block>): seq<Call> {
    if blocks == [] then []
    else
      var last := blocks[|blocks| - 1];
      CallsIn(blocks[..|blocks| - 1]) + if last.ToolUse? then [Call(last.id, last.name, last.input)] else []
  }

  function ResultsIn(blocks: seq<Block>): seq<Result> {
    if blocks == [] then []
    else
      var last := blocks[|blocks| - 1];
      ResultsIn(blocks[..|blocks| - 1]) + if last.ToolResult? then [Result(last.toolUseId, last.output)] else []
  }

  function TextIn(blocks: seq<Block>): string {
    if blocks == [] then ""
    else
      var last := blocks[|blocks| - 1];
      TextIn(blocks[..|blocks| - 1]) + if last.Text? then last.text else ""
  }

  function ThinkingIn(blocks: seq<Block>): string {
    if blocks == [] then ""
    else
      var last := blocks[|blocks| - 1];
      ThinkingIn(blocks[..|blocks| - 1]) + if last.Thinking? then last.thinking else ""
  }

  function CallsOf(m: Message): seq<Call> {
    if m.role == Assistant && m.content.Blocks? then CallsIn(m.content.blocks) else []
  }

  function ResultsOf(m: Message): seq<Result> {
    if m.role == User && m.content.Blocks? then ResultsIn(m.content.blocks) else []
  }

  function Ids(calls: seq<Call>): (ids: seq<string>)
    ensures |ids| == |calls|
  {
    seq(|calls|, i requires 0 <= i < |calls| => calls[i].id)
  }

  function ResultIds(results: seq<Result>): (ids: seq<string>)
    ensures |ids| == |results|
  {
    seq(|results|, i requires 0 <= i < |results| => results[i].id)
  }

  /** Every call is answered in the next message, in order, and nothing else is a result. */
  predicate WellFormed(ms: seq<Message>) {
    ms != [] ==>
      && ResultsOf(ms[0]) == []
      && CallsOf(ms[|ms| - 1]) == []
      && forall i :: 0 <= i < |ms| - 1 ==> ResultIds(ResultsOf(ms[i + 1])) == Ids(CallsOf(ms[i]))
  }

  /** As WellFormed, with calls still to be answered; results may also come in several messages. */
  predicate Answered(ms: seq<Message>, owed: seq<string>)
    decreases |ms|
  {
    if ms == [] then owed == []
    else
      var ids := ResultIds(ResultsOf(ms[0]));
      if ids != [] then ids <= owed && Answered(ms[1..], owed[|ids|..])
      else owed == [] && Answered(ms[1..], Ids(CallsOf(ms[0])))
  }

  lemma {:induction false} WellFormedIsAnswered(ms: seq<Message>, owed: seq<string>)
    requires ms == [] ==> owed == []
    requires ms != [] ==> ResultIds(ResultsOf(ms[0])) == owed && CallsOf(ms[|ms| - 1]) == []
    requires forall i :: 0 <= i < |ms| - 1 ==> ResultIds(ResultsOf(ms[i + 1])) == Ids(CallsOf(ms[i]))
    ensures Answered(ms, owed)
    decreases |ms|
  {
    if ms != [] {
      var next := Ids(CallsOf(ms[0]));
      if |ms| == 1 {
        assert ms[1..] == [];
        WellFormedIsAnswered([], next);
      } else {
        var tail := ms[1..];
        forall i | 0 <= i < |tail| - 1
          ensures ResultIds(ResultsOf(tail[i + 1])) == Ids(CallsOf(tail[i]))
        {
          var k := i + 1;
          assert tail[i] == ms[k] && tail[i + 1] == ms[k + 1];
        }
        WellFormedIsAnswered(tail, next);
      }
      assert owed[|owed|..] == [];
      if owed != [] {
        OnlyOneKind(ms[0]);
      }
    }
  }

  lemma OnlyOneKind(m: Message)
    ensures ResultsOf(m) == [] || CallsOf(m) == []
  {
  }

  // ---------------------------------------------------------------- chat completions

  datatype Part = Kept(block: Block) | ImageUrl(url: string)

  datatype ChatMessage =
    | AssistantMessage(reasoning: string, text: string, calls: seq<Call>)
    | ToolMessage(id: string, output: string)
    | WithImages(role: Role, parts: seq<Part>)
    | Verbatim(message: Message)

  function DataUrl(media: string, data: string): string {
    "data:" + media + ";base64," + data
  }

  function PartOf(b: Block): Part {
    if b.Image? then ImageUrl(DataUrl(b.media, b.data)) else Kept(b)
  }

  predicate HasImage(blocks: seq<Block>) {
    exists i :: 0 <= i < |blocks| && blocks[i].Image?
  }

  function ToolMessages(results: seq<Result>): (out: seq<ChatMessage>)
    ensures |out| == |results|
  {
    seq(|results|, i requires 0 <= i < |results| => ToolMessage(results[i].id, results[i].output))
  }

  function ToChat(m: Message): seq<ChatMessage> {
    if m.content.Blocks? && m.role == Assistant then
      var blocks := m.content.blocks;
      [AssistantMessage(ThinkingIn(blocks), TextIn(blocks), CallsIn(blocks))]
    else if m.content.Blocks? && m.role == User && ResultsIn(m.content.blocks) != [] then
      ToolMessages(ResultsIn(m.content.blocks))
    else if m.content.Blocks? && m.role == User && HasImage(m.content.blocks) then
      var blocks := m.content.blocks;
      [WithImages(m.role, seq(|blocks|, i requires 0 <= i < |blocks| => PartOf(blocks[i])))]
    else [Verbatim(m)]
  }

  function ToChatAll(ms: seq<Message>): seq<ChatMessage> {
    if ms == [] then [] else ToChat(ms[0]) + ToChatAll(ms[1..])
  }

  function ChatCalls(c: ChatMessage): seq<Call> {
    if c.AssistantMessage? then c.calls else []
  }

  /**
   The order the protocol asks for: the tool messages owed come first and in order, and
   each assistant message is followed by exactly one for each of its calls.
   */
  predicate ChatFollows(out: seq<ChatMessage>, owed: seq<string>)
    decreases |out|
  {
    if out == [] then owed == []
    else if owed != [] then
      out[0].ToolMessage? && out[0].id == owed[0] && ChatFollows(out[1..], owed[1..])
    else !out[0].ToolMessage? && ChatFollows(out[1..], Ids(ChatCalls(out[0])))
  }

  /** A run of tool messages settles exactly the ids it names. */
  lemma {:induction false} ToolsSettle(results: seq<Result>, rest: seq<ChatMessage>, owed: seq<string>)
    ensures results == [] ==> (ChatFollows(ToolMessages(results) + rest, owed) <==> ChatFollows(rest, owed))
    ensures results != [] ==>
              (ChatFollows(ToolMessages(results) + rest, owed) <==>
               ResultIds(results) <= owed && ChatFollows(rest, owed[|results|..]))
    decreases |results|
  {
    var out := ToolMessages(results) + rest;
    if results == [] {
      assert out == rest;
    } else {
      assert out[0] == ToolMessage(results[0].id, results[0].output);
      assert out[1..] == ToolMessages(results[1..]) + rest;
      if owed != [] {
        ToolsSettle(results[1..], rest, owed[1..]);
        assert ResultIds(results)[0] == results[0].id && ResultIds(results)[1..] == ResultIds(results[1..]);
        assert ResultIds(results) <= owed <==> results[0].id == owed[0] && ResultIds(results[1..]) <= owed[1..] by {
          HeadPrefix(ResultIds(results), owed);
        }
        if |results| == 1 {
          assert results[1..] == [];
        } else if |results| <= |owed| {
          assert owed[1..][|results| - 1..] == owed[|results|..];
        }
      }
    }
  }

  lemma HeadPrefix(a: seq<string>, b: seq<string>)
    requires a != [] && b != []
    ensures a <= b <==> a[0] == b[0] && a[1..] <= b[1..]
  {
    if a[0] == b[0] && a[1..] <= b[1..] {
      assert forall i :: 0 <= i < |a| ==> a[i] == if i == 0 then a[0] else a[1..][i - 1];
      assert forall i :: 0 <= i < |a| ==> b[i] == if i == 0 then b[0] else b[1..][i - 1];
    }
  }

  /** Pairing is neither broken nor repaired: the chat messages follow the protocol exactly when the conversation does. */
  lemma {:induction false} ChatFollowsIff(ms: seq<Message>, owed: seq<string>)
    ensures ChatFollows(ToChatAll(ms), owed) <==> Answered(ms, owed)
    decreases |ms|
  {
    if ms != [] {
      var rest := ToChatAll(ms[1..]);
      var results := ResultsOf(ms[0]);
      if results != [] {
        ToolsSettle(results, rest, owed);
        if ResultIds(results) <= owed {
          ChatFollowsIff(ms[1..], owed[|results|..]);
        }
      } else {
        var out := ToChat(ms[0]) + rest;
        assert |ToChat(ms[0])| == 1 && out[0] == ToChat(ms[0])[0] && out[1..] == rest;
        assert ChatCalls(out[0]) == CallsOf(ms[0]);
        ChatFollowsIff(ms[1..], Ids(CallsOf(ms[0])));
      }
    }
  }

  /** So a well-formed conversation gives well-formed chat messages. */
  lemma ChatKeepsPairing(ms: seq<Message>)
    requires WellFormed(ms)
    ensures ChatFollows(ToChatAll(ms), [])
  {
    WellFormedIsAnswered(ms, []);
    ChatFollowsIff(ms, []);
  }

  // ---------------------------------------------------------------- responses

  datatype ResponseItem =
    | FunctionCall(call: Call)
    | FunctionOutput(result: Result)
    | AssistantText(text: string)
    | UserText(text: string)
    | InputImage(url: string)
    | Unchanged(message: Message)

  function FunctionCalls(calls: seq<Call>): (out: seq<ResponseItem>)
    ensures |out| == |calls|
  {
    seq(|calls|, i requires 0 <= i < |calls| => FunctionCall(calls[i]))
  }

  function UserItem(b: Block): seq<ResponseItem> {
    match b
    case ToolResult(id, output) => [FunctionOutput(Result(id, output))]
    case Image(media, data) => [InputImage(DataUrl(media, data))]
    case Text(text) => [UserText(text)]
    case _ => []
  }

  function UserItems(blocks: seq<Block>): seq<ResponseItem> {
    if blocks == [] then [] else UserItems(blocks[..|blocks| - 1]) + UserItem(blocks[|blocks| - 1])
  }

  function AssistantItems(blocks: seq<Block>): seq<ResponseItem> {
    FunctionCalls(CallsIn(blocks)) + if TextIn(blocks) != "" then [AssistantText(TextIn(blocks))] else []
  }

  function ToItems(m: Message): seq<ResponseItem> {
    if m.content.Blocks? && m.role == Assistant then AssistantItems(m.content.blocks)
    else if m.content.Blocks? && m.role == User then UserItems(m.content.blocks)
    else [Unchanged(m)]
  }

  function ToItemsAll(ms: seq<Message>): seq<ResponseItem> {
    if ms == [] then [] else ToItems(ms[0]) + ToItemsAll(ms[1..])
  }

  /** The calls still unanswered behind a list of items, or None once an output answers no call or the wrong one. */
  datatype Owed = Owed(ids: seq<string>) | Broken

  function Settle(o: Owed, item: ResponseItem): Owed {
    match o
    case Broken => Broken
    case Owed(ids) =>
      match item
      case FunctionCall(call) => Owed(ids + [call.id])
      case FunctionOutput(result) => if ids != [] && ids[0] == result.id then Owed(ids[1..]) else Broken
      case _ => o
  }

  function SettleAll(o: Owed, items: seq<ResponseItem>): Owed {
    if items == [] then o else Settle(SettleAll(o, items[..|items| - 1]), items[|items| - 1])
  }

  lemma {:induction false} SettleSplit(o: Owed, a: seq<ResponseItem>, b: seq<ResponseItem>)
    ensures SettleAll(o, a + b) == SettleAll(SettleAll(o, a), b)
  {
    if b == [] {
      assert a + b == a;
    } else {
      assert (a + b)[..|a + b| - 1] == a + b[..|b| - 1];
      SettleSplit(o, a, b[..|b| - 1]);
    }
  }

  lemma {:induction false} SettleCalls(ids: seq<string>, calls: seq<Call>)
    ensures SettleAll(Owed(ids), FunctionCalls(calls)) == Owed(ids + Ids(calls))
  {
    if calls == [] {
      assert ids + Ids(calls) == ids;
    } else {
      var front := calls[..|calls| - 1];
      SettleCalls(ids, front);
      assert FunctionCalls(calls)[..|calls| - 1] == FunctionCalls(front);
      assert ids + Ids(calls) == ids + Ids(front) + [calls[|calls| - 1].id];
    }
  }

  lemma {:induction false} SettleUser(ids: seq<string>, blocks: seq<Block>)
    requires ResultIds(ResultsIn(blocks)) <= ids
    ensures SettleAll(Owed(ids), UserItems(blocks)) == Owed(ids[|ResultsIn(blocks)|..])
  {
    if blocks != [] {
      var n := |blocks| - 1;
      ResultIdsFront(blocks);
      SettleUser(ids, blocks[..n]);
      SettleUserNext(ids, blocks);
    } else {
      assert ids[0..] == ids;
    }
  }

  lemma ResultIdsFront(blocks: seq<Block>)
    requires blocks != []
    ensures var last := blocks[|blocks| - 1];
      ResultIds(ResultsIn(blocks)) ==
      ResultIds(ResultsIn(blocks[..|blocks| - 1])) + if last.ToolResult? then [last.toolUseId] else []
  {
    var last := blocks[|blocks| - 1];
    var more := if last.ToolResult? then [Result(last.toolUseId, last.output)] else [];
    IdsSplit(ResultsIn(blocks[..|blocks| - 1]), more);
  }

  lemma IdsSplit(a: seq<Result>, b: seq<Result>)
    ensures ResultIds(a + b) == ResultIds(a) + ResultIds(b)
  {
  }

  /** One more block of a user message: an output settles the oldest call, anything else settles none. */
  lemma SettleUserNext(ids: seq<string>, blocks: seq<Block>)
    requires blocks != [] && ResultIds(ResultsIn(blocks)) <= ids
    requires var front := blocks[..|blocks| - 1];
      |ResultsIn(front)| <= |ids| && SettleAll(Owed(ids), UserItems(front)) == Owed(ids[|ResultsIn(front)|..])
    ensures SettleAll(Owed(ids), UserItems(blocks)) == Owed(ids[|ResultsIn(blocks)|..])
  {
    hide SettleAll;
    var n := |blocks| - 1;
    var before := ResultsIn(blocks[..n]);
    ResultIdsFront(blocks);
    SettleSplit(Owed(ids), UserItems(blocks[..n]), UserItem(blocks[n]));
    SettleOne(Owed(ids[|before|..]), UserItem(blocks[n]));
    if blocks[n].ToolResult? {
      assert ids[|before|..][1..] == ids[|before| + 1..];
    }
  }

  lemma SettleOne(o: Owed, items: seq<ResponseItem>)
    requires |items| <= 1
    ensures SettleAll(o, items) == if items == [] then o else Settle(o, items[0])
  {
    if items != [] {
      assert items[..0] == [];
    }
  }

  lemma SettleAssistant(ids: seq<string>, blocks: seq<Block>)
    ensures SettleAll(Owed(ids), AssistantItems(blocks)) == Owed(ids + Ids(CallsIn(blocks)))
  {
    var text := if TextIn(blocks) != "" then [AssistantText(TextIn(blocks))] else [];
    SettleCalls(ids, CallsIn(blocks));
    SettleSplit(Owed(ids), FunctionCalls(CallsIn(blocks)), text);
    SettleOne(Owed(ids + Ids(CallsIn(blocks))), text);
  }

  lemma SettleMessage(m: Message, owed: seq<string>)
    requires ResultIds(ResultsOf(m)) <= owed && (ResultsOf(m) == [] ==> owed == [])
    ensures SettleAll(Owed(owed), ToItems(m)) ==
            Owed(if ResultsOf(m) == [] then Ids(CallsOf(m)) else owed[|ResultsOf(m)|..])
  {
    if m.content.Blocks? && m.role == Assistant {
      SettleAssistant(owed, m.content.blocks);
      assert [] + Ids(CallsOf(m)) == Ids(CallsOf(m));
    } else if m.content.Blocks? && m.role == User {
      SettleUser(owed, m.content.blocks);
    } else {
      SettleOne(Owed(owed), ToItems(m));
    }
  }

  /** Every output answers the oldest unanswered call before it, and none is left over. */
  lemma {:induction false} ItemsSettle(ms: seq<Message>, owed: seq<string>)
    requires Answered(ms, owed)
    ensures SettleAll(Owed(owed), ToItemsAll(ms)) == Owed([])
    decreases |ms|
  {
    if ms != [] {
      SettleMessage(ms[0], owed);
      SettleSplit(Owed(owed), ToItems(ms[0]), ToItemsAll(ms[1..]));
      ItemsSettle(ms[1..], if ResultsOf(ms[0]) == [] then Ids(CallsOf(ms[0])) else owed[|ResultsOf(ms[0])|..]);
    }
  }

  function ItemCalls(items: seq<ResponseItem>): seq<Call> {
    if items == [] then []
    else
      var last := items[|items| - 1];
      ItemCalls(items[..|items| - 1]) + if last.FunctionCall? then [last.call] else []
  }

  function ItemResults(items: seq<ResponseItem>): seq<Result> {
    if items == [] then []
    else
      var last := items[|items| - 1];
      ItemResults(items[..|items| - 1]) + if last.FunctionOutput? then [last.result] else []
  }

  /** Settled so far: the outputs are the first of the calls, and the rest are owed. */
  lemma {:induction false} SettledMeans(items: seq<ResponseItem>)
    requires SettleAll(Owed([]), items).Owed?
    ensures ResultIds(ItemResults(items)) + SettleAll(Owed([]), items).ids == Ids(ItemCalls(items))
  {
    if items != [] {
      var n := |items| - 1;
      SettledMeans(items[..n]);
      var before := SettleAll(Owed([]), items[..n]).ids;
      var results, calls := ItemResults(items[..n]), ItemCalls(items[..n]);
      if items[n].FunctionCall? {
        assert ItemResults(items) == results;
        assert Ids(ItemCalls(items)) == Ids(calls) + [items[n].call.id];
      } else if items[n].FunctionOutput? {
        assert ItemCalls(items) == calls;
        assert ResultIds(ItemResults(items)) == ResultIds(results) + [items[n].result.id];
        assert before == [before[0]] + before[1..];
      } else {
        assert ItemResults(items) == results && ItemCalls(items) == calls;
      }
    }
  }

  lemma {:induction false} PrefixSettles(items: seq<ResponseItem>, n: nat)
    requires n <= |items| && SettleAll(Owed([]), items).Owed?
    ensures SettleAll(Owed([]), items[..n]).Owed?
    decreases |items|
  {
    if n < |items| {
      assert items[..|items| - 1][..n] == items[..n];
      PrefixSettles(items[..|items| - 1], n);
    } else {
      assert items[..n] == items;
    }
  }

  /**
   For every well-formed conversation the function calls and the outputs of the responses
   form have the same ids in the same order, and at every point of the list the outputs so
   far answer calls that came before.
   */
  lemma ItemsKeepPairing(ms: seq<Message>, n: nat)
    requires WellFormed(ms) && n <= |ToItemsAll(ms)|
    ensures var items := ToItemsAll(ms);
      && ResultIds(ItemResults(items)) == Ids(ItemCalls(items))
      && ResultIds(ItemResults(items[..n])) <= Ids(ItemCalls(items[..n]))
  {
    var items := ToItemsAll(ms);
    WellFormedIsAnswered(ms, []);
    ItemsSettle(ms, []);
    SettledMeans(items);
    PrefixSettles(items, n);
    SettledMeans(items[..n]);
  }

  // ---------------------------------------------------------------- nothing that the protocols share is lost

  function AllCalls(ms: seq<Message>): seq<Call> {
    if ms == [] then [] else CallsOf(ms[0]) + AllCalls(ms[1..])
  }

  function AllResults(ms: seq<Message>): seq<Result> {
    if ms == [] then [] else ResultsOf(ms[0]) + AllResults(ms[1..])
  }

  function AllChatCalls(out: seq<ChatMessage>): seq<Call> {
    if out == [] then [] else ChatCalls(out[0]) + AllChatCalls(out[1..])
  }

  function AllChatResults(out: seq<ChatMessage>): seq<Result> {
    if out == [] then [] else ChatResults(out[0]) + AllChatResults(out[1..])
  }

  function ChatResults(c: ChatMessage): seq<Result> {
    if c.ToolMessage? then [Result(c.id, c.output)] else []
  }

  lemma ChatFirst(first: ChatMessage, out: seq<ChatMessage>)
    ensures AllChatCalls([first] + out) == ChatCalls(first) + AllChatCalls(out)
    ensures AllChatResults([first] + out) == ChatResults(first) + AllChatResults(out)
  {
    hide ChatCalls, ChatResults;
    assert ([first] + out)[1..] == out;
  }

  lemma {:induction false} ChatSplit(a: seq<ChatMessage>, b: seq<ChatMessage>)
    ensures AllChatCalls(a + b) == AllChatCalls(a) + AllChatCalls(b)
    ensures AllChatResults(a + b) == AllChatResults(a) + AllChatResults(b)
  {
    if a == [] {
      Empty(b);
      Empty(AllChatCalls(b));
      Empty(AllChatResults(b));
    } else {
      hide ChatCalls, ChatResults, AllChatCalls, AllChatResults;
      FirstApart(a, b);
      ChatSplit(a[1..], b);
      ChatFirst(a[0], a[1..] + b);
      ChatFirst(a[0], a[1..]);
      Associate(ChatCalls(a[0]), AllChatCalls(a[1..]), AllChatCalls(b));
      Associate(ChatResults(a[0]), AllChatResults(a[1..]), AllChatResults(b));
    }
  }

  lemma {:induction false} ToolMessagesHold(results: seq<Result>)
    ensures AllChatResults(ToolMessages(results)) == results && AllChatCalls(ToolMessages(results)) == []
  {
    if results != [] {
      ToolMessagesHold(results[1..]);
      assert ToolMessages(results)[1..] == ToolMessages(results[1..]);
    }
  }

  lemma ChatMessageHolds(m: Message)
    ensures AllChatCalls(ToChat(m)) == CallsOf(m) && AllChatResults(ToChat(m)) == ResultsOf(m)
  {
    if ResultsOf(m) != [] {
      ToolMessagesHold(ResultsOf(m));
    } else {
      assert ToChat(m)[1..] == [];
    }
  }

  lemma {:induction false} ItemsSplit(a: seq<ResponseItem>, b: seq<ResponseItem>)
    ensures ItemCalls(a + b) == ItemCalls(a) + ItemCalls(b)
    ensures ItemResults(a + b) == ItemResults(a) + ItemResults(b)
  {
    if b == [] {
      assert a + b == a;
    } else {
      assert (a + b)[..|a + b| - 1] == a + b[..|b| - 1];
      ItemsSplit(a, b[..|b| - 1]);
    }
  }

  lemma {:induction false} FunctionCallsHold(calls: seq<Call>)
    ensures ItemCalls(FunctionCalls(calls)) == calls && ItemResults(FunctionCalls(calls)) == []
  {
    if calls != [] {
      var n := |calls| - 1;
      FunctionCallsHold(calls[..n]);
      assert FunctionCalls(calls)[..n] == FunctionCalls(calls[..n]);
    }
  }

  lemma {:induction false} UserItemsHold(blocks: seq<Block>)
    ensures ItemCalls(UserItems(blocks)) == [] && ItemResults(UserItems(blocks)) == ResultsIn(blocks)
  {
    hide ItemCalls, ItemResults;
    if blocks == [] {
      OneItem([]);
    } else {
      var n := |blocks| - 1;
      UserItemsHold(blocks[..n]);
      ItemsSplit(UserItems(blocks[..n]), UserItem(blocks[n]));
      OneItem(UserItem(blocks[n]));
    }
  }

  lemma OneItem(items: seq<ResponseItem>)
    requires |items| <= 1
    ensures ItemCalls(items) == if items != [] && items[0].FunctionCall? then [items[0].call] else []
    ensures ItemResults(items) == if items != [] && items[0].FunctionOutput? then [items[0].result] else []
  {
    if items != [] {
      assert items[..0] == [];
    }
  }

  lemma AssistantItemsHold(blocks: seq<Block>)
    ensures ItemCalls(AssistantItems(blocks)) == CallsIn(blocks) && ItemResults(AssistantItems(blocks)) == []
  {
    hide CallsIn, TextIn, ItemCalls, ItemResults, FunctionCalls;
    var text := if TextIn(blocks) != "" then [AssistantText(TextIn(blocks))] else [];
    FunctionCallsHold(CallsIn(blocks));
    ItemsSplit(FunctionCalls(CallsIn(blocks)), text);
    OneItem(text);
  }

  lemma ItemsOfMessage(m: Message)
    ensures ItemCalls(ToItems(m)) == CallsOf(m) && ItemResults(ToItems(m)) == ResultsOf(m)
  {
    if m.content.Blocks? && m.role == Assistant {
      hide CallsIn, AssistantItems, ItemCalls, ItemResults;
      AssistantItemsHold(m.content.blocks);
    } else if m.content.Blocks? && m.role == User {
      UserItemsHold(m.content.blocks);
    } else {
      OneItem(ToItems(m));
    }
  }

  /** Both forms carry exactly the conversation's calls and results: ids, names, arguments, outputs and order. */
  lemma {:induction false} NothingIsLost(ms: seq<Message>)
    ensures AllChatCalls(ToChatAll(ms)) == AllCalls(ms) == ItemCalls(ToItemsAll(ms))
    ensures AllChatResults(ToChatAll(ms)) == AllResults(ms) == ItemResults(ToItemsAll(ms))
  {
    if ms != [] {
      NothingIsLost(ms[1..]);
      ChatMessageHolds(ms[0]);
      ChatSplit(ToChat(ms[0]), ToChatAll(ms[1..]));
      ItemsOfMessage(ms[0]);
      ItemsSplit(ToItems(ms[0]), ToItemsAll(ms[1..]));
    }
  }

  // ---------------------------------------------------------------- text

  /** A transcript: every character with the role that says it. */
  type Transcript = seq<(Role, char)>

  function Voiced(role: Role, text: string): (t: Transcript)
    ensures |t| == |text|
  {
    seq(|text|, i requires 0 <= i < |text| => (role, text[i]))
  }

  lemma VoicedSplit(role: Role, a: string, b: string)
    ensures Voiced(role, a + b) == Voiced(role, a) + Voiced(role, b)
  {
  }

  /** The text of a message: the plain content, or all its text blocks. */
  function TextOf(m: Message): string {
    match m.content
    case Plain(text) => text
    case Blocks(blocks) => TextIn(blocks)
    case NoContent => ""
  }

  function Said(ms: seq<Message>): Transcript {
    if ms == [] then [] else Voiced(ms[0].role, TextOf(ms[0])) + Said(ms[1..])
  }

  function PartText(parts: seq<Part>): string {
    if parts == [] then ""
    else
      var last := parts[|parts| - 1];
      PartText(parts[..|parts| - 1]) + if last.Kept? && last.block.Text? then last.block.text else ""
  }

  function SaidByChat(c: ChatMessage): Transcript {
    match c
    case AssistantMessage(_, text, _) => Voiced(Assistant, text)
    case WithImages(role, parts) => Voiced(role, PartText(parts))
    case Verbatim(m) => Voiced(m.role, TextOf(m))
    case ToolMessage(_, _) => []
  }

  function SaidInChat(out: seq<ChatMessage>): Transcript {
    if out == [] then [] else SaidByChat(out[0]) + SaidInChat(out[1..])
  }

  function SaidByItem(item: ResponseItem): Transcript {
    match item
    case AssistantText(text) => Voiced(Assistant, text)
    case UserText(text) => Voiced(User, text)
    case Unchanged(m) => Voiced(m.role, TextOf(m))
    case _ => []
  }

  function SaidInItems(items: seq<ResponseItem>): Transcript {
    if items == [] then [] else SaidInItems(items[..|items| - 1]) + SaidByItem(items[|items| - 1])
  }

  lemma {:induction false} PartsKeepText(blocks: seq<Block>)
    ensures PartText(seq(|blocks|, i requires 0 <= i < |blocks| => PartOf(blocks[i]))) == TextIn(blocks)
  {
    if blocks != [] {
      var n := |blocks| - 1;
      PartsKeepText(blocks[..n]);
      var parts := seq(|blocks|, i requires 0 <= i < |blocks| => PartOf(blocks[i]));
      assert parts[..n] == seq(|blocks[..n]|, i requires 0 <= i < |blocks[..n]| => PartOf(blocks[..n][i]));
    }
  }

  lemma {:induction false} ToolMessagesSayNothing(results: seq<Result>)
    ensures SaidInChat(ToolMessages(results)) == []
  {
    if results != [] {
      ToolMessagesSayNothing(results[1..]);
      assert ToolMessages(results)[1..] == ToolMessages(results[1..]);
    }
  }

  lemma SaidFirst(first: ChatMessage, out: seq<ChatMessage>)
    ensures SaidInChat([first] + out) == SaidByChat(first) + SaidInChat(out)
  {
    hide SaidByChat;
    assert ([first] + out)[1..] == out;
  }

  lemma {:induction false} SaidInChatSplit(a: seq<ChatMessage>, b: seq<ChatMessage>)
    ensures SaidInChat(a + b) == SaidInChat(a) + SaidInChat(b)
  {
    if a == [] {
      Empty(b);
      Empty(SaidInChat(b));
    } else {
      hide SaidByChat, SaidInChat;
      FirstApart(a, b);
      SaidInChatSplit(a[1..], b);
      SaidFirst(a[0], a[1..] + b);
      SaidFirst(a[0], a[1..]);
      Associate(SaidByChat(a[0]), SaidInChat(a[1..]), SaidInChat(b));
    }
  }

  lemma ChatSays(m: Message)
    ensures SaidInChat(ToChat(m)) == if ResultsOf(m) == [] then Voiced(m.role, TextOf(m)) else []
  {
    if ResultsOf(m) != [] {
      ToolMessagesSayNothing(ResultsOf(m));
    } else {
      assert ToChat(m)[1..] == [] && SaidByChat(ToChat(m)[0]) + [] == SaidByChat(ToChat(m)[0]);
      if m.content.Blocks? {
        PartsKeepText(m.content.blocks);
      }
    }
  }

  lemma {:induction false} ChatSaysNoMore(ms: seq<Message>)
    ensures |SaidInChat(ToChatAll(ms))| <= |Said(ms)|
  {
    if ms != [] {
      hide ToChat, SaidByChat;
      ChatSays(ms[0]);
      SaidInChatSplit(ToChat(ms[0]), ToChatAll(ms[1..]));
      ChatSaysNoMore(ms[1..]);
    }
  }

  /** No message has text beside tool results. */
  predicate NoTextBesideResults(ms: seq<Message>) {
    forall i :: 0 <= i < |ms| ==> ResultsOf(ms[i]) == [] || TextOf(ms[i]) == ""
  }

  lemma NoTextCons(ms: seq<Message>)
    requires ms != []
    ensures NoTextBesideResults(ms) <==>
            (ResultsOf(ms[0]) == [] || TextOf(ms[0]) == "") && NoTextBesideResults(ms[1..])
  {
    hide ResultsOf, TextOf;
    assert ms == [ms[0]] + ms[1..];
  }

  /**
   The chat form says everything a conversation says, in order and by the same roles, plain content
   included, exactly when no message has text beside tool results.
   */
  lemma {:induction false} ChatKeepsTextIff(ms: seq<Message>)
    ensures SaidInChat(ToChatAll(ms)) == Said(ms) <==> NoTextBesideResults(ms)
  {
    if ms != [] {
      hide ToChat, SaidByChat, TextOf, ResultsOf, SaidInChat, NoTextBesideResults, Voiced;
      var rest := ms[1..];
      ChatSays(ms[0]);
      SaidInChatSplit(ToChat(ms[0]), ToChatAll(rest));
      ChatSaysNoMore(rest);
      ChatKeepsTextIff(rest);
      NoTextCons(ms);
      SameTranscript(SaidInChat(ToChat(ms[0])), Voiced(ms[0].role, TextOf(ms[0])), SaidInChat(ToChatAll(rest)), Said(rest));
    }
  }

  lemma SameTranscript(a: Transcript, b: Transcript, c: Transcript, d: Transcript)
    requires a == b || a == []
    requires |c| <= |d|
    ensures a + c == b + d <==> a == b && c == d
  {
    if a + c == b + d {
      assert |a| + |c| == |b| + |d|;
      assert c == (a + c)[|a|..] && d == (b + d)[|b|..];
    }
  }

  lemma {:induction false} CallItemsSayNothing(calls: seq<Call>)
    ensures SaidInItems(FunctionCalls(calls)) == []
  {
    if calls != [] {
      var n := |calls| - 1;
      CallItemsSayNothing(calls[..n]);
      assert FunctionCalls(calls)[..n] == FunctionCalls(calls[..n]);
    }
  }

  lemma {:induction false} UserItemsSay(blocks: seq<Block>)
    ensures SaidInItems(UserItems(blocks)) == Voiced(User, TextIn(blocks))
  {
    if blocks != [] {
      hide SaidInItems, Voiced;
      var front, last := blocks[..|blocks| - 1], blocks[|blocks| - 1];
      UserItemsSay(front);
      SaidInItemsSplit(UserItems(front), UserItem(last));
      VoicedSplit(User, TextIn(front), if last.Text? then last.text else "");
      UserItemSays(last);
    } else {
      assert UserItems(blocks) == [] && TextIn(blocks) == "";
    }
  }

  lemma UserItemSays(b: Block)
    ensures SaidInItems(UserItem(b)) == Voiced(User, if b.Text? then b.text else "")
  {
    OneItemSays(UserItem(b));
  }

  lemma OneItemSays(items: seq<ResponseItem>)
    requires |items| <= 1
    ensures SaidInItems(items) == if items == [] then [] else SaidByItem(items[0])
  {
    if items != [] {
      assert items[..0] == [] && [] + SaidByItem(items[0]) == SaidByItem(items[0]);
    }
  }

  lemma SaidNext(items: seq<ResponseItem>, item: ResponseItem)
    ensures SaidInItems(items + [item]) == SaidInItems(items) + SaidByItem(item)
  {
    hide SaidByItem;
    assert (items + [item])[..|items|] == items;
  }

  lemma {:induction false} SaidInItemsSplit(a: seq<ResponseItem>, b: seq<ResponseItem>)
    ensures SaidInItems(a + b) == SaidInItems(a) + SaidInItems(b)
  {
    if b == [] {
      Empty(a);
      Empty(SaidInItems(a));
    } else {
      hide SaidByItem, SaidInItems;
      var front, last := b[..|b| - 1], b[|b| - 1];
      LastApart(a, b);
      SaidInItemsSplit(a, front);
      SaidNext(a + front, last);
      SaidNext(front, last);
      Associate(SaidInItems(a), SaidInItems(front), SaidByItem(last));
    }
  }

  lemma AssistantItemsSay(blocks: seq<Block>)
    ensures SaidInItems(AssistantItems(blocks)) == Voiced(Assistant, TextIn(blocks))
  {
    hide CallsIn, TextIn, SaidInItems, FunctionCalls;
    var text := if TextIn(blocks) != "" then [AssistantText(TextIn(blocks))] else [];
    CallItemsSayNothing(CallsIn(blocks));
    SaidInItemsSplit(FunctionCalls(CallsIn(blocks)), text);
    OneItemSays(text);
  }

  lemma ItemsSay(m: Message)
    ensures SaidInItems(ToItems(m)) == Voiced(m.role, TextOf(m))
  {
    hide AssistantItems, UserItems, SaidInItems, TextIn;
    if m.content.Blocks? && m.role == Assistant {
      AssistantItemsSay(m.content.blocks);
    } else if m.content.Blocks? && m.role == User {
      UserItemsSay(m.content.blocks);
    } else {
      OneItemSays(ToItems(m));
    }
  }

  /** The responses form says everything that a conversation says, in order and by the same roles. */
  lemma {:induction false} ItemsKeepText(ms: seq<Message>)
    ensures SaidInItems(ToItemsAll(ms)) == Said(ms)
  {
    if ms != [] {
      hide ToItems, SaidByItem;
      ItemsSay(ms[0]);
      SaidInItemsSplit(ToItems(ms[0]), ToItemsAll(ms[1..]));
      ItemsKeepText(ms[1..]);
    }
  }

  // ---------------------------------------------------------------- the translators as they run

  method ConvertAssistantMessage(blocks: seq<Block>) returns (m: ChatMessage)
    ensures m == AssistantMessage(ThinkingIn(blocks), TextIn(blocks), CallsIn(blocks))
  {
    var text, reasoning := "", "";
    var toolCalls := [];
    for i := 0 to |blocks|
      invariant reasoning == ThinkingIn(blocks[..i]) && text == TextIn(blocks[..i]) && toolCalls == CallsIn(blocks[..i])
    {
      assert blocks[..i + 1][..i] == blocks[..i];
      match blocks[i]
      case Thinking(thinking) => reasoning := reasoning + thinking;
      case Text(t) => text := text + t;
      case ToolUse(id, name, input) => toolCalls := toolCalls + [Call(id, name, input)];
      case _ =>
    }
    assert blocks[..|blocks|] == blocks;
    m := AssistantMessage(reasoning, text, toolCalls);
  }

  method ConvertToolResultMessages(blocks: seq<Block>) returns (out: seq<ChatMessage>)
    ensures out == ToolMessages(ResultsIn(blocks))
  {
    out := [];
    for i := 0 to |blocks|
      invariant out == ToolMessages(ResultsIn(blocks[..i]))
    {
      assert blocks[..i + 1][..i] == blocks[..i];
      if blocks[i].ToolResult? {
        out := out + [ToolMessage(blocks[i].toolUseId, blocks[i].output)];
      }
    }
    assert blocks[..|blocks|] == blocks;
  }

  lemma {:induction false} ToChatNext(ms: seq<Message>, i: nat)
    requires i < |ms|
    ensures ToChatAll(ms[..i + 1]) == ToChatAll(ms[..i]) + ToChat(ms[i])
    decreases i
  {
    hide ToChat;
    if i == 0 {
      assert ms[..1][1..] == [] && ms[..0] == [];
    } else {
      ToChatNext(ms[1..], i - 1);
      assert ms[..i + 1][1..] == ms[1..][..i] && ms[..i][1..] == ms[1..][..i - 1];
    }
  }

  method ConvertMessagesToOpenAI(messages: seq<Message>) returns (result: seq<ChatMessage>)
    ensures result == ToChatAll(messages)
  {
    result := [];
    for i := 0 to |messages|
      invariant result == ToChatAll(messages[..i])
    {
      ToChatNext(messages, i);
      var msg := messages[i];
      if msg.content.Blocks? && msg.role == Assistant {
        var converted := ConvertAssistantMessage(msg.content.blocks);
        result := result + [converted];
        continue;
      }
      if msg.content.Blocks? && msg.role == User {
        var toolMsgs := ConvertToolResultMessages(msg.content.blocks);
        if |toolMsgs| != 0 {
          result := result + toolMsgs;
          continue;
        }
        if HasImage(msg.content.blocks) {
          var blocks := msg.content.blocks;
          result := result + [WithImages(msg.role, seq(|blocks|, k requires 0 <= k < |blocks| => PartOf(blocks[k])))];
          continue;
        }
      }
      result := result + [Verbatim(msg)];
    }
    assert messages[..|messages|] == messages;
  }

  lemma {:induction false} ToItemsNext(ms: seq<Message>, i: nat)
    requires i < |ms|
    ensures ToItemsAll(ms[..i + 1]) == ToItemsAll(ms[..i]) + ToItems(ms[i])
    decreases i
  {
    hide ToItems;
    if i == 0 {
      assert ms[..1][1..] == [] && ms[..0] == [];
    } else {
      ToItemsNext(ms[1..], i - 1);
      assert ms[..i + 1][1..] == ms[1..][..i] && ms[..i][1..] == ms[1..][..i - 1];
    }
  }

  method ConvertMessagesToResponses(messages: seq<Message>) returns (result: seq<ResponseItem>)
    ensures result == ToItemsAll(messages)
  {
    result := [];
    for i := 0 to |messages|
      invariant result == ToItemsAll(messages[..i])
    {
      ToItemsNext(messages, i);
      var msg := messages[i];
      if msg.role == Assistant && msg.content.Blocks? {
        result := PushAssistant(result, msg.content.blocks);
      } else if msg.role == User && msg.content.Blocks? {
        result := PushUser(result, msg.content.blocks);
      } else {
        result := result + [Unchanged(msg)];
      }
    }
    assert messages[..|messages|] == messages;
  }

  method PushAssistant(items: seq<ResponseItem>, blocks: seq<Block>) returns (result: seq<ResponseItem>)
    ensures result == items + AssistantItems(blocks)
  {
    result := items;
    var text := "";
    for i := 0 to |blocks|
      invariant text == TextIn(blocks[..i]) && result == items + FunctionCalls(CallsIn(blocks[..i]))
    {
      assert blocks[..i + 1][..i] == blocks[..i];
      match blocks[i]
      case Text(t) => text := text + t;
      case ToolUse(id, name, input) => result := result + [FunctionCall(Call(id, name, input))];
      case _ =>
    }
    assert blocks[..|blocks|] == blocks;
    if text != "" {
      result := result + [AssistantText(text)];
    }
  }

  method PushUser(items: seq<ResponseItem>, blocks: seq<Block>) returns (result: seq<ResponseItem>)
    ensures result == items + UserItems(blocks)
  {
    result := items;
    for i := 0 to |blocks|
      invariant result == items + UserItems(blocks[..i])
    {
      assert blocks[..i + 1][..i] == blocks[..i];
      match blocks[i]
      case ToolResult(id, output) => result := result + [FunctionOutput(Result(id, output))];
      case Image(media, data) => result := result + [InputImage(DataUrl(media, data))];
      case Text(text) => result := result + [UserText(text)];
      case _ =>
    }
    assert blocks[..|blocks|] == blocks;
  }
}
