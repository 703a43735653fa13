/** Thinking and images in the Rust client's translation of a conversation. */
module TranslatedMedia {
  import opened Sequences
  import opened Translate

  // ---------------------------------------------------------------- replies

  datatype Reply = Reply(thinking: string, text: string, calls: seq<Call>)

  function ReplyOf(m: Message): seq<Reply> {
    if m.role == Assistant && m.content.Blocks? then
      [Reply(ThinkingIn(m.content.blocks), TextIn(m.content.blocks), CallsIn(m.content.blocks))]
    else []
  }

  function ChatReply(c: ChatMessage): seq<Reply> {
    if c.AssistantMessage? then [Reply(c.reasoning, c.text, c.calls)] else []
  }

  lemma ReplyTranslates(m: Message)
    ensures Concat(ChatReply, ToChat(m)) == ReplyOf(m)
  {
    hide Concat, ThinkingIn, TextIn, CallsIn;
    if |ToChat(m)| == 1 {
      assert ToChat(m) == [ToChat(m)[0]];
      ConcatOne(ChatReply, ToChat(m)[0]);
    } else {
      ConcatNone(ChatReply, ToChat(m));
    }
  }

  /** The chat form has the conversation's replies in order, each with its thinking, its text and its calls. */
  lemma {:induction false} ChatKeepsReplies(ms: seq<Message>)
    ensures Concat(ChatReply, ToChatAll(ms)) == Concat(ReplyOf, ms)
  {
    if ms != [] {
      hide ToChat, ReplyOf;
      ReplyTranslates(ms[0]);
      ConcatSplit(ChatReply, ToChat(ms[0]), ToChatAll(ms[1..]));
      ChatKeepsReplies(ms[1..]);
    }
  }

  // ---------------------------------------------------------------- images

  function UrlOf(b: Block): seq<string> {
    if b.Image? then ["data:" + b.media + ";base64," + b.data] else []
  }

  /** The images of what a user sends. */
  function ImagesOf(m: Message): seq<string> {
    if m.role == User && m.content.Blocks? then Concat(UrlOf, m.content.blocks) else []
  }

  function PartUrl(part: Part): seq<string> {
    if part.ImageUrl? then [part.url] else []
  }

  function ChatImages(c: ChatMessage): seq<string> {
    if c.WithImages? then Concat(PartUrl, c.parts) else []
  }

  function ItemImage(item: ResponseItem): seq<string> {
    if item.InputImage? then [item.url] else []
  }

  lemma {:induction false} PartsKeepImages(blocks: seq<Block>)
    ensures Concat(PartUrl, seq(|blocks|, i requires 0 <= i < |blocks| => PartOf(blocks[i]))) == Concat(UrlOf, blocks)
  {
    if blocks != [] {
      var rest := blocks[1..];
      var parts := seq(|blocks|, i requires 0 <= i < |blocks| => PartOf(blocks[i]));
      assert parts[1..] == seq(|rest|, i requires 0 <= i < |rest| => PartOf(rest[i]));
      PartsKeepImages(rest);
    }
  }

  lemma NoImageNoUrl(blocks: seq<Block>)
    requires !HasImage(blocks)
    ensures Concat(UrlOf, blocks) == []
  {
    ConcatNone(UrlOf, blocks);
  }

  lemma ChatShows(m: Message)
    ensures Concat(ChatImages, ToChat(m)) == if ResultsOf(m) == [] then ImagesOf(m) else []
  {
    hide Concat, ResultsIn, ThinkingIn, TextIn, CallsIn, PartOf;
    if ResultsOf(m) != [] {
      ConcatNone(ChatImages, ToChat(m));
    } else {
      ConcatOne(ChatImages, ToChat(m)[0]);
      if m.content.Blocks? && m.role == User {
        PartsKeepImages(m.content.blocks);
        if !HasImage(m.content.blocks) {
          NoImageNoUrl(m.content.blocks);
        }
      }
    }
  }

  predicate NoImageBesideResults(ms: seq<Message>) {
    forall i :: 0 <= i < |ms| ==> ResultsOf(ms[i]) == [] || ImagesOf(ms[i]) == []
  }

  lemma NoImageCons(ms: seq<Message>)
    requires ms != []
    ensures NoImageBesideResults(ms) <==>
            (ResultsOf(ms[0]) == [] || ImagesOf(ms[0]) == []) && NoImageBesideResults(ms[1..])
  {
    hide ResultsOf, ImagesOf;
    assert ms == [ms[0]] + ms[1..];
  }

  lemma SameOrNothing(a: seq<string>, b: seq<string>, c: seq<string>, d: seq<string>)
    requires a == b || a == []
    requires |c| <= |d|
    ensures a + c == b + d <==> a == b && c == d
  {
    if a + c == b + d {
      assert |a| + |c| == |b| + |d|;
      assert c == (a + c)[|a|..] && d == (b + d)[|b|..];
    }
  }

  /** The chat form shows every image, in order, exactly when no message has one beside tool results; never more. */
  lemma {:induction false} ChatKeepsImagesIff(ms: seq<Message>)
    ensures |Concat(ChatImages, ToChatAll(ms))| <= |Concat(ImagesOf, ms)|
    ensures Concat(ChatImages, ToChatAll(ms)) == Concat(ImagesOf, ms) <==> NoImageBesideResults(ms)
  {
    if ms != [] {
      hide ToChat, ChatImages, ImagesOf, ResultsOf, NoImageBesideResults;
      var rest := ms[1..];
      ChatShows(ms[0]);
      ConcatSplit(ChatImages, ToChat(ms[0]), ToChatAll(rest));
      ChatKeepsImagesIff(rest);
      NoImageCons(ms);
      SameOrNothing(Concat(ChatImages, ToChat(ms[0])), ImagesOf(ms[0]),
                    Concat(ChatImages, ToChatAll(rest)), Concat(ImagesOf, rest));
    }
  }

  lemma {:induction false} UserItemsShow(blocks: seq<Block>)
    ensures Concat(ItemImage, UserItems(blocks)) == Concat(UrlOf, blocks)
  {
    hide Concat, UserItem, UrlOf, ItemImage;
    if blocks == [] {
      ConcatNothing(ItemImage);
      ConcatNothing(UrlOf);
    } else {
      var front, last := blocks[..|blocks| - 1], blocks[|blocks| - 1];
      UserItemsShow(front);
      ItemShows(last);
      ConcatSplit(ItemImage, UserItems(front), UserItem(last));
      assert blocks == front + [last];
      ConcatNext(UrlOf, front, last);
    }
  }

  lemma ItemShows(b: Block)
    ensures Concat(ItemImage, UserItem(b)) == UrlOf(b)
  {
    hide Concat;
    if b.Image? {
      ConcatOne(ItemImage, UserItem(b)[0]);
    } else {
      ConcatNone(ItemImage, UserItem(b));
    }
  }

  lemma ItemsShow(m: Message)
    ensures Concat(ItemImage, ToItems(m)) == ImagesOf(m)
  {
    hide Concat, UserItems, TextIn, CallsIn;
    if m.content.Blocks? && m.role == User {
      UserItemsShow(m.content.blocks);
    } else {
      ConcatNone(ItemImage, ToItems(m));
    }
  }

  /** The responses form shows every image of the user, in order. */
  lemma {:induction false} ItemsKeepImages(ms: seq<Message>)
    ensures Concat(ItemImage, ToItemsAll(ms)) == Concat(ImagesOf, ms)
  {
    if ms != [] {
      hide ToItems, ImagesOf;
      ItemsShow(ms[0]);
      ConcatSplit(ItemImage, ToItems(ms[0]), ToItemsAll(ms[1..]));
      ItemsKeepImages(ms[1..]);
    }
  }
}
