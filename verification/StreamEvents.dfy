/** What a stream shows its consumer, told from its lines. */
module StreamEvents {
  import opened Options
  import opened Sequences
  import opened TokenCounts
  import opened ToolReassembly
  import opened SseStream
  import opened StreamCalls

  // ---------------------------------------------------------------- text and thinking

  predicate HasChoice(s: Said) {
    s.form == ChatForm && !s.data.done && s.data.chunk.Some? && s.data.chunk.value.choices != []
  }

  function Content(s: Said): string {
    if HasChoice(s) then s.data.chunk.value.choices[0].content else ""
  }

  function OutputText(s: Said): string {
    if Responds(s, OutputTextDelta) then s.data.response.value.delta else ""
  }

  /** The joined contents of the chat chunks, without the line breaks they begin with. */
  function ChatSoFar(said: seq<Said>): string {
    TrimLeft(Concat(Content, said), {'\n'})
  }

  /** The joined output text of responses events, without the line breaks it begins with. */
  function OutputSoFar(said: seq<Said>): string {
    TrimLeft(Concat(OutputText, said), {'\n', '\r'})
  }

  /** What a longer text adds to a shorter one. */
  function Beyond(shorter: string, longer: string): string {
    if |shorter| <= |longer| then longer[|shorter|..] else ""
  }

  /** The text that one more line brings. */
  function TextOf(before: seq<Said>, s: Said): string {
    match s.form
    case ChatForm => Beyond(ChatSoFar(before), ChatSoFar(before + [s]))
    case ResponsesForm => Beyond(OutputSoFar(before), OutputSoFar(before + [s]))
    case ClaudeForm => if s.name == BlockDelta && OpenBlock(before).kind == TextBlock then s.data.text else ""
  }

  function ThinkingOf(before: seq<Said>, s: Said): string {
    match s.form
    case ChatForm => ""
    case ResponsesForm => if Responds(s, ReasoningDelta) then s.data.response.value.delta else ""
    case ClaudeForm => if s.name == BlockDelta && OpenBlock(before).kind == ThinkingBlock then s.data.thinking else ""
  }

  // ---------------------------------------------------------------- counts and reasons

  predicate Fails(s: Said) {
    && s.form == ResponsesForm && s.data.response.Some?
    && (s.name == Response(Failed) || s.name == Response(Incomplete) || s.name == ErrorEvent)
  }

  predicate IsClaude(s: Said, name: EventType) {
    s.form == ClaudeForm && s.name == name
  }

  /** A responses event that ends the response reports all counts anew. */
  predicate Recounts(s: Said) {
    Responds(s, Completed) || Fails(s)
  }

  predicate HasChunk(s: Said) {
    s.form == ChatForm && !s.data.done && s.data.chunk.Some?
  }

  /** The counts of the response, or of the event itself when the response states none. */
  function ReportOf(r: ResponseView): Reported {
    if r.nested.input != 0 || r.nested.output != 0 then r.nested else r.root
  }

  function CachedOf(u: Reported): int {
    if u.cachedDetail != 0 then u.cachedDetail else u.cached
  }

  /** Input tokens: the last positive count, where a Claude delta counts only as long as there is none. */
  function InputAt(said: seq<Said>): int {
    if said == [] then 0
    else
      var was, s := InputAt(said[..|said| - 1]), said[|said| - 1];
      if Recounts(s) then
        var u := ReportOf(s.data.response.value);
        if u.input > CachedOf(u) then u.input - CachedOf(u) else 0
      else if HasChunk(s) && s.data.chunk.value.prompt > 0 then s.data.chunk.value.prompt
      else if IsClaude(s, MessageStart) && s.data.startUsage.input > 0 then s.data.startUsage.input
      else if IsClaude(s, MessageDelta) && s.data.deltaUsage.input > 0 && was == 0 then s.data.deltaUsage.input
      else was
  }

  function OutputAt(said: seq<Said>): int {
    if said == [] then 0
    else
      var was, s := OutputAt(said[..|said| - 1]), said[|said| - 1];
      if Recounts(s) then ReportOf(s.data.response.value).output
      else if HasChunk(s) && s.data.chunk.value.completion > 0 then s.data.chunk.value.completion
      else if IsClaude(s, MessageDelta) && s.data.deltaUsage.output > 0 then s.data.deltaUsage.output
      else was
  }

  function CacheReadAt(said: seq<Said>): int {
    if said == [] then 0
    else
      var was, s := CacheReadAt(said[..|said| - 1]), said[|said| - 1];
      if Recounts(s) then CachedOf(ReportOf(s.data.response.value))
      else if HasChunk(s) && s.data.chunk.value.cached > 0 then s.data.chunk.value.cached
      else if IsClaude(s, MessageStart) && s.data.startUsage.cacheRead > 0 then s.data.startUsage.cacheRead
      else if IsClaude(s, MessageDelta) && s.data.deltaUsage.cacheRead > 0 && was == 0 then s.data.deltaUsage.cacheRead
      else was
  }

  function CacheWriteAt(said: seq<Said>): int {
    if said == [] then 0
    else
      var was, s := CacheWriteAt(said[..|said| - 1]), said[|said| - 1];
      if IsClaude(s, MessageStart) && s.data.startUsage.cacheWrite > 0 then s.data.startUsage.cacheWrite
      else if IsClaude(s, MessageDelta) && s.data.deltaUsage.cacheWrite > 0 && was == 0 then s.data.deltaUsage.cacheWrite
      else was
  }

  function TokensAt(said: seq<Said>): Tokens {
    Tokens(InputAt(said), OutputAt(said), CacheReadAt(said), CacheWriteAt(said))
  }

  /** The stop reason stated last, in a Claude delta or by the choice of a chunk. */
  function ReasonAt(said: seq<Said>): string {
    if said == [] then ""
    else
      var s := said[|said| - 1];
      if HasChoice(s) && s.data.chunk.value.choices[0].finish.Some? then s.data.chunk.value.choices[0].finish.value
      else if IsClaude(s, MessageDelta) && s.data.stopReason != "" then s.data.stopReason
      else ReasonAt(said[..|said| - 1])
  }

  // ---------------------------------------------------------------- ends and errors

  /** What a line that ends the stream says of it. */
  datatype End = End(tokens: Tokens, stopped: bool, reason: string)

  function EndOf(before: seq<Said>, s: Said): Option<End> {
    match s.form
    case ChatForm =>
      if !s.data.done then None
      else
        var reason := ReasonAt(before);
        Some(End(TokensAt(before), true,
                 match reason case "stop" => "end_turn" case "tool_calls" => "tool_use" case "length" => "max_tokens" case _ => reason))
    case ClaudeForm => if s.name == MessageStop then Some(End(TokensAt(before), true, ReasonAt(before))) else None
    case ResponsesForm =>
      var tokens := TokensAt(before + [s]).(cacheWrite := 0);
      if Responds(s, Completed) then Some(End(tokens, true, if Notes(before) != [] then "tool_use" else "end_turn"))
      else if Fails(s) then Some(End(tokens, false, "error"))
      else None
  }

  /** The end that was said last. */
  function LastEnd(said: seq<Said>): Option<End> {
    if said == [] then None
    else
      var front, s := said[..|said| - 1], said[|said| - 1];
      if EndOf(front, s).Some? then EndOf(front, s) else LastEnd(front)
  }

  predicate SaysError(s: Said) {
    Fails(s) || IsClaude(s, ErrorEvent)
  }

  /** The message of a failed response is the first one that is not empty, or one for its kind. */
  predicate IsMessage(s: Said, text: string)
    requires Fails(s)
  {
    var messages := s.data.response.value.messages;
    if exists i :: 0 <= i < |messages| && messages[i] != "" then
      exists i :: 0 <= i < |messages| && messages[i] == text != "" && forall j :: 0 <= j < i ==> messages[j] == ""
    else
      text == match s.name
              case Response(Incomplete) => "Response incomplete"
              case ErrorEvent => "Stream error"
              case _ => "Response failed"
  }

  function ErrorsOf(s: Said): seq<Event> {
    if Fails(s) then [Error(FirstMessage(s.data.response.value.messages, DefaultMessage(s.name)))]
    else if IsClaude(s, ErrorEvent) then [Error(s.data.message)]
    else []
  }

  function EndEvents(end: Option<End>): seq<Event> {
    if end.Some? then [Usage(end.value.tokens, end.value.stopped), Stop(end.value.reason)] else []
  }

  // ---------------------------------------------------------------- all events

  /** What one more line shows the consumer at once. */
  ghost function Shows(before: seq<Said>, s: Said): seq<Event> {
    TextEvents(TextOf(before, s)) + ThinkingEvents(ThinkingOf(before, s)) + Sends(before, s) + ErrorsOf(s)
  }

  ghost function Shown(said: seq<Said>): seq<Event> {
    if said == [] then [] else Shown(said[..|said| - 1]) + Shows(said[..|said| - 1], said[|said| - 1])
  }

  /** What one more line makes the decoder send. */
  ghost function Emits(before: seq<Said>, s: Said): seq<Event> {
    Shows(before, s) + EndEvents(EndOf(before, s))
  }

  ghost function Emitted(said: seq<Said>): seq<Event> {
    if said == [] then [] else Emitted(said[..|said| - 1]) + Emits(said[..|said| - 1], said[|said| - 1])
  }

  function AfterRetry(events: seq<Event>): seq<Event> {
    if events == [] || events[|events| - 1].Retry? then []
    else AfterRetry(events[..|events| - 1]) + [events[|events| - 1]]
  }

  // ---------------------------------------------------------------- trimming

  /** What is cut off is the longest beginning made of the cut set. */
  lemma {:induction false} TrimMeans(text: string, cutset: set<char>) returns (n: nat)
    ensures n <= |text| && TrimLeft(text, cutset) == text[n..]
    ensures forall i :: 0 <= i < n ==> text[i] in cutset
    ensures n < |text| ==> text[n] !in cutset
  {
    n := 0;
    if text != "" && text[0] in cutset {
      var m := TrimMeans(text[1..], cutset);
      n := m + 1;
      assert text[1..][m..] == text[n..];
      assert forall i :: 0 < i < n ==> text[i] == text[1..][i - 1];
    }
  }

  lemma {:induction false} TrimAppend(a: string, b: string, cutset: set<char>)
    ensures TrimLeft(a + b, cutset) ==
            if TrimLeft(a, cutset) == "" then TrimLeft(b, cutset) else TrimLeft(a, cutset) + b
  {
    if a == "" {
      assert a + b == b;
    } else if a[0] in cutset {
      assert (a + b)[1..] == a[1..] + b;
      TrimAppend(a[1..], b, cutset);
    }
  }

  lemma TrimNothing(cutset: set<char>)
    ensures TrimLeft("", cutset) == ""
  {
  }

  lemma ChatTextIs(said: seq<Said>, s: Said)
    ensures ChatSoFar(said + [s]) ==
            if ChatSoFar(said) == "" then TrimLeft(Content(s), {'\n'}) else ChatSoFar(said) + Content(s)
    ensures Beyond(ChatSoFar(said), ChatSoFar(said + [s])) ==
            if ChatSoFar(said) == "" then TrimLeft(Content(s), {'\n'}) else Content(s)
  {
    hide Concat, TrimLeft, Content;
    ConcatNext(Content, said, s);
    TrimAppend(Concat(Content, said), Content(s), {'\n'});
  }

  lemma OutputTextIs(said: seq<Said>, s: Said)
    ensures OutputSoFar(said + [s]) ==
            if OutputSoFar(said) == "" then TrimLeft(OutputText(s), {'\n', '\r'}) else OutputSoFar(said) + OutputText(s)
    ensures Beyond(OutputSoFar(said), OutputSoFar(said + [s])) ==
            if OutputSoFar(said) == "" then TrimLeft(OutputText(s), {'\n', '\r'}) else OutputText(s)
  {
    hide Concat, TrimLeft, OutputText;
    ConcatNext(OutputText, said, s);
    TrimAppend(Concat(OutputText, said), OutputText(s), {'\n', '\r'});
  }

  // ---------------------------------------------------------------- what the decoder knows besides calls

  ghost predicate Knows(d: Decoder, said: seq<Said>) {
    && (d.chat.started <==> ChatSoFar(said) != "")
    && (d.responses.started <==> OutputSoFar(said) != "")
    && d.tokens == TokensAt(said)
    && d.stopReason == ReasonAt(said)
    && (d.stopEmitted <==> LastEnd(said).Some?)
  }

  lemma KnowsNothing()
    ensures Knows(INITIAL, [])
  {
  }

  lemma Next(said: seq<Said>, s: Said)
    ensures (said + [s])[..|said|] == said && (said + [s])[|said|] == s
  {
  }

  /** Lines that say nothing of the chat or the output text leave them as they are. */
  lemma SoFarStays(said: seq<Said>, s: Said)
    ensures s.form != ChatForm ==> ChatSoFar(said + [s]) == ChatSoFar(said)
    ensures !Responds(s, OutputTextDelta) ==> OutputSoFar(said + [s]) == OutputSoFar(said)
  {
    hide TrimLeft, Concat;
    ConcatNext(Content, said, s);
    ConcatNext(OutputText, said, s);
    Empty(Concat(Content, said));
    Empty(Concat(OutputText, said));
  }

  lemma LastEndNext(said: seq<Said>, s: Said)
    ensures LastEnd(said + [s]) == if EndOf(said, s).Some? then EndOf(said, s) else LastEnd(said)
  {
    hide EndOf;
    Next(said, s);
  }

  lemma ReasonNext(said: seq<Said>, s: Said)
    ensures ReasonAt(said + [s]) ==
            if HasChoice(s) && s.data.chunk.value.choices[0].finish.Some? then s.data.chunk.value.choices[0].finish.value
            else if IsClaude(s, MessageDelta) && s.data.stopReason != "" then s.data.stopReason
            else ReasonAt(said)
  {
    Next(said, s);
  }

  lemma TokensOfChat(said: seq<Said>, s: Said)
    requires s.form == ChatForm
    ensures TokensAt(said + [s]) ==
            if HasChunk(s) then ChunkUsage(TokensAt(said), s.data.chunk.value) else TokensAt(said)
  {
    Next(said, s);
  }

  lemma TokensOfClaude(said: seq<Said>, s: Said)
    requires s.form == ClaudeForm
    ensures TokensAt(said + [s]) ==
            if s.name == MessageStart then StartUsage(TokensAt(said), s.data.startUsage)
            else if s.name == MessageDelta then DeltaUsage(TokensAt(said), s.data.deltaUsage)
            else TokensAt(said)
  {
    Next(said, s);
  }

  lemma TokensOfResponse(said: seq<Said>, s: Said)
    requires s.form == ResponsesForm
    ensures TokensAt(said + [s]) ==
            if Recounts(s) then Recorded(TokensAt(said), s.data.response.value) else TokensAt(said)
  {
    Next(said, s);
  }

  // -------- chat lines

  lemma ChatKnows(d: Decoder, said: seq<Said>, s: Said)
    requires Knows(d, said) && s.form == ChatForm
    ensures Knows(ChatStep(d, s.data).decoder, said + [s])
  {
    hide Emitting, Flush, AddAll, TokensAt, ReasonAt, ChunkUsage, TrimLeft, ChatSoFar, OutputSoFar, LastEnd;
    ChatTextIs(said, s);
    SoFarStays(said, s);
    TokensOfChat(said, s);
    ReasonNext(said, s);
    LastEndNext(said, s);
    TrimNothing({'\n'});
  }

  /** A chunk without a choice shows nothing. */
  lemma NoChoiceEmits(said: seq<Said>, s: Said)
    requires s.form == ChatForm && !s.data.done && !HasChoice(s)
    ensures Emits(said, s) == []
  {
    hide Flush, OpenSegment, TrimLeft, ChatSoFar;
    ChatTextIs(said, s);
    TrimNothing({'\n'});
  }

  lemma DoneSends(d: Decoder, said: seq<Said>, s: Said)
    requires HoldsChat(d, said) && s.form == ChatForm && s.data.done
    ensures Sends(said, s) == Emitting(Flush(d.chat.calls))
  {
    hide Emitting, Flush, OpenSegment, AddAll;
    Empty(OpenSegment(said));
  }

  /** The end of the stream spells no text. */
  lemma DoneIsSilent(said: seq<Said>, s: Said)
    requires s.form == ChatForm && s.data.done
    ensures TextOf(said, s) == "" && ThinkingOf(said, s) == ""
  {
    hide TrimLeft, ChatSoFar;
    ChatTextIs(said, s);
    TrimNothing({'\n'});
  }

  lemma DoneEmits(d: Decoder, said: seq<Said>, s: Said)
    requires Holds(d, said) && Knows(d, said) && s.form == ChatForm && s.data.done
    ensures DoneStep(d).events == Emits(said, s)
  {
    hide HoldsChat, HoldsBlock, HoldsResponses, Emitting, Flush, Sends, TextOf, ThinkingOf, TokensAt, ReasonAt, ChatSoFar,
         OutputSoFar, LastEnd;
    DoneSends(d, said, s);
    DoneIsSilent(said, s);
    Empty(Emitting(Flush(d.chat.calls)));
  }

  lemma ChatEmits(d: Decoder, said: seq<Said>, s: Said)
    requires Holds(d, said) && Knows(d, said) && s.form == ChatForm
    ensures ChatStep(d, s.data).events == Emits(said, s)
  {
    hide Holds, Emitting, ChoiceStep, DoneStep, Emits, Knows;
    if s.data.done {
      DoneEmits(d, said, s);
    } else if HasChoice(s) {
      ChatHeld(d, said, s);
      ChoiceEmits(d, said, s);
    } else {
      NoChoiceEmits(said, s);
    }
  }

  lemma ChatHeld(d: Decoder, said: seq<Said>, s: Said)
    requires Holds(d, said) && s.form == ChatForm
    ensures AddAll(d.chat.calls, ChatMark(s).deltas) == AddAll(map[], OpenSegment(said) + ChatMark(s).deltas)
    ensures d.chat.calls == AddAll(map[], OpenSegment(said))
  {
    hide OpenSegment, AddAll, HoldsBlock, HoldsResponses;
    HeldAfterChat(said, s);
  }

  lemma ChoiceEmits(d: Decoder, said: seq<Said>, s: Said)
    requires Knows(d, said) && HasChoice(s)
    requires AddAll(d.chat.calls, ChatMark(s).deltas) == AddAll(map[], OpenSegment(said) + ChatMark(s).deltas)
    ensures ChatStep(d, s.data).events == Emits(said, s)
  {
    hide Emitting, Flush, OpenSegment, TokensAt, ReasonAt, ChunkUsage, TrimLeft, ChatSoFar, OutputSoFar, LastEnd, AddAll;
    ChatTextIs(said, s);
  }

  // -------- Claude lines

  /** A block that stops. */
  lemma StopSends(d: Decoder, said: seq<Said>, s: Said)
    requires HoldsBlock(d, said) && s.form == ClaudeForm && s.name == BlockStop
    ensures BlockStopStep(d).events == Sends(said, s)
  {
    hide OpenBlock, LeftInput, OwnInput, OrEmptyObject;
    if d.block == ToolBlock {
      assert d.partialJSON == LeftInput(said) + OwnInput(said);
    }
  }

  lemma ClaudeSends(d: Decoder, said: seq<Said>, s: Said)
    requires HoldsBlock(d, said) && s.form == ClaudeForm && d.eventType == s.name && s.name != RetryEvent
    requires d.tokens == TokensAt(said) && d.stopReason == ReasonAt(said)
    ensures ClaudeStep(d, s.data).events == Emits(said, s)
  {
    hide OpenBlock, LeftInput, OwnInput, TokensAt, ReasonAt, BlockStopStep;
    if s.name == BlockStop {
      StopSends(d, said, s);
    }
  }

  lemma ClaudeEmits(d: Decoder, said: seq<Said>, s: Said)
    requires Holds(d, said) && Knows(d, said)
    requires s.form == ClaudeForm && d.eventType == s.name && s.name != RetryEvent
    ensures ClaudeStep(d, s.data).events == Emits(said, s) && Knows(ClaudeStep(d, s.data).decoder, said + [s])
  {
    hide HoldsChat, HoldsBlock, HoldsResponses, TokensAt, ReasonAt, StartUsage, DeltaUsage, ChatSoFar, OutputSoFar, LastEnd, Emits;
    ClaudeSends(d, said, s);
    SoFarStays(said, s);
    TokensOfClaude(said, s);
    ReasonNext(said, s);
    LastEndNext(said, s);
  }

  // -------- responses lines

  /** An event that ends the response spells no text. */
  lemma RecountIsSilent(said: seq<Said>, s: Said)
    requires Recounts(s)
    ensures TextOf(said, s) == "" && ThinkingOf(said, s) == ""
  {
    hide OutputSoFar;
    SoFarStays(said, s);
  }

  lemma NotedIff(notes: seq<Note>)
    ensures NotedCalls(notes) != map[] <==> notes != []
  {
    hide NotedCall;
    if notes != [] {
      assert notes[0] in notes;
      assert notes[0].index in NotedCalls(notes);
    }
  }

  lemma CompletionEmits(d: Decoder, said: seq<Said>, s: Said)
    requires HoldsResponses(d, said) && Responds(s, Completed) && d.tokens == TokensAt(said)
    ensures CompletedStep(d, s.data.response.value).events == Emits(said, s)
  {
    hide Emitting, Flush, Named, Notes, TokensAt, Recorded, HoldsIndexes, NotedCalls, TextOf, ThinkingOf;
    TokensOfResponse(said, s);
    RecountIsSilent(said, s);
    NotedIff(Notes(said));
    Empty(Emitting(Flush(Named(d.responses.calls))));
  }

  lemma FailureEmits(d: Decoder, said: seq<Said>, s: Said)
    requires Fails(s) && d.eventType == s.name && d.tokens == TokensAt(said)
    ensures FailedStep(d, s.data.response.value).events == Emits(said, s)
  {
    hide TokensAt, Recorded, FirstMessage, DefaultMessage, TextOf, ThinkingOf;
    TokensOfResponse(said, s);
    RecountIsSilent(said, s);
  }

  lemma ReasoningEmits(d: Decoder, said: seq<Said>, s: Said)
    requires Responds(s, ReasoningDelta) && d.eventType == s.name
    ensures ResponseStep(d, s.data).events == Emits(said, s)
  {
    hide OutputSoFar, Flush, Named, Notes, TokensAt;
    SoFarStays(said, s);
  }

  lemma OutputEmits(d: Decoder, said: seq<Said>, s: Said)
    requires Responds(s, OutputTextDelta) && d.eventType == s.name && (d.responses.started <==> OutputSoFar(said) != "")
    ensures ResponseStep(d, s.data).events == Emits(said, s)
  {
    hide OutputSoFar, TrimLeft, Flush, Named, Notes, TokensAt;
    OutputTextIs(said, s);
  }

  /** All other events show nothing. */
  lemma OtherEmits(d: Decoder, said: seq<Said>, s: Said)
    requires s.form == ResponsesForm && d.eventType == s.name && IsResponseEvent(s.name)
    requires !Recounts(s) && !Responds(s, ReasoningDelta) && !Responds(s, OutputTextDelta)
    ensures ResponseStep(d, s.data).events == [] == Emits(said, s)
  {
    hide OutputSoFar, NoteItem, NoteArguments, TokensAt;
    SoFarStays(said, s);
  }

  lemma ResponseSends(d: Decoder, said: seq<Said>, s: Said)
    requires Holds(d, said) && Knows(d, said)
    requires s.form == ResponsesForm && d.eventType == s.name && IsResponseEvent(s.name)
    ensures ResponseStep(d, s.data).events == Emits(said, s)
  {
    hide HoldsChat, HoldsBlock, HoldsResponses, Emits, CompletedStep, FailedStep, NoteItem, NoteArguments, TrimLeft, TokensAt,
         ReasonAt, LastEnd, ChatSoFar;
    if Responds(s, Completed) {
      CompletionEmits(d, said, s);
    } else if Fails(s) {
      FailureEmits(d, said, s);
    } else if Responds(s, ReasoningDelta) {
      ReasoningEmits(d, said, s);
    } else if Responds(s, OutputTextDelta) {
      OutputEmits(d, said, s);
    } else {
      OtherEmits(d, said, s);
    }
  }

  lemma ResponseKnows(d: Decoder, said: seq<Said>, s: Said)
    requires Knows(d, said) && s.form == ResponsesForm && d.eventType == s.name && IsResponseEvent(s.name)
    ensures Knows(ResponseStep(d, s.data).decoder, said + [s])
  {
    hide TokensAt, ReasonAt, LastEnd, OutputSoFar, ChatSoFar, TrimLeft, Flush, Named, Recorded, FirstMessage, Add, Notes;
    SoFarStays(said, s);
    OutputTextIs(said, s);
    TokensOfResponse(said, s);
    ReasonNext(said, s);
    LastEndNext(said, s);
    TrimNothing({'\n', '\r'});
  }

  // -------- every line

  ghost predicate Tells(o: Output, name: EventType, heard: seq<Said>) {
    && o.decoder.eventType == name
    && Holds(o.decoder, SinceRetry(heard))
    && Knows(o.decoder, SinceRetry(heard))
    && AfterRetry(o.events) == Emitted(SinceRetry(heard))
  }

  lemma {:induction false} AfterRetrySplit(a: seq<Event>, b: seq<Event>)
    requires NoRetry(b)
    ensures AfterRetry(a + b) == AfterRetry(a) + b
  {
    if b == [] {
      Empty(a);
      Empty(AfterRetry(a));
    } else {
      var front, last := b[..|b| - 1], b[|b| - 1];
      LastApart(a, b);
      AfterRetrySplit(a, front);
      Associate(AfterRetry(a), front, [last]);
    }
  }

  lemma EmitsNoRetry(said: seq<Said>, s: Said)
    ensures NoRetry(Emits(said, s))
  {
    hide TextOf, ThinkingOf, Sends, EndOf, TextEvents, ThinkingEvents, ErrorsOf, EndEvents, NoRetry;
    var texts := TextEvents(TextOf(said, s)) + ThinkingEvents(ThinkingOf(said, s));
    SpokenNoRetry(TextOf(said, s), ThinkingOf(said, s), s, EndOf(said, s));
    SendsAreCalls(said, s);
    CallsNoRetry(Sends(said, s));
    NoRetryJoins(texts, Sends(said, s));
    NoRetryJoins(texts + Sends(said, s), ErrorsOf(s));
    NoRetryJoins(Shows(said, s), EndEvents(EndOf(said, s)));
  }

  lemma SpokenNoRetry(text: string, thinking: string, s: Said, end: Option<End>)
    ensures NoRetry(TextEvents(text) + ThinkingEvents(thinking)) && NoRetry(ErrorsOf(s)) && NoRetry(EndEvents(end))
  {
    hide FirstMessage;
  }

  lemma CallsNoRetry(calls: seq<Event>)
    requires forall i :: 0 <= i < |calls| ==> calls[i].ToolCall?
    ensures NoRetry(calls)
  {
  }

  lemma NoRetryJoins(a: seq<Event>, b: seq<Event>)
    requires NoRetry(a) && NoRetry(b)
    ensures NoRetry(a + b)
  {
  }

  lemma EmittedNext(said: seq<Said>, s: Said)
    ensures Emitted(said + [s]) == Emitted(said) + Emits(said, s)
    ensures Shown(said + [s]) == Shown(said) + Shows(said, s)
  {
    hide Emits, Shows;
    Next(said, s);
  }

  lemma SinceRetryNext(heard: seq<Said>, s: Said)
    ensures SinceRetry(heard + [s]) == if IsRetry(s) then [] else SinceRetry(heard) + [s]
  {
    Next(heard, s);
  }

  lemma TellsNothing(d: Decoder, events: seq<Event>)
    requires d == INITIAL && (events == [] || events[|events| - 1].Retry?)
    ensures Tells(Output(d, events), NoEvent, []) && Emitted([]) == []
  {
    HoldsNothing(d);
    KnowsNothing();
  }

  /** A data line that is no retry. */
  lemma TellsSpoken(responses: bool, before: Output, name: EventType, heard: seq<Said>, p: Payload)
    requires Tells(before, name, heard)
    requires !IsRetry(Said(FormOf(responses, name, p), name, p))
    ensures var s := Said(FormOf(responses, name, p), name, p);
      var o := Step(responses, before.decoder, Data(p));
      Tells(Output(o.decoder, before.events + o.events), name, heard + [s])
  {
    hide ResponseStep, ChatStep, ClaudeStep, Holds, Knows, Sends, CallsSince, Emits, Emitted, AfterRetry, SinceRetry;
    var s := Said(FormOf(responses, name, p), name, p);
    var d, said := before.decoder, SinceRetry(heard);
    SinceRetryNext(heard, s);
    match s.form {
      case ResponsesForm =>
        AfterResponse(d, said, s);
        ResponseSends(d, said, s);
        ResponseKnows(d, said, s);
      case ChatForm =>
        AfterChat(d, said, s);
        ChatEmits(d, said, s);
        ChatKnows(d, said, s);
      case ClaudeForm =>
        AfterClaude(d, said, s);
        ClaudeEmits(d, said, s);
    }
    EmitsNoRetry(said, s);
    AfterRetrySplit(before.events, Emits(said, s));
    EmittedNext(said, s);
  }

  lemma TellsRetry(responses: bool, before: Output, name: EventType, heard: seq<Said>, p: Payload)
    requires Tells(before, name, heard)
    requires IsRetry(Said(FormOf(responses, name, p), name, p))
    ensures var s := Said(FormOf(responses, name, p), name, p);
      var o := Step(responses, before.decoder, Data(p));
      Tells(Output(o.decoder, before.events + o.events), NoEvent, heard + [s])
  {
    hide ResponseStep, ChatStep, Holds, Knows, Emitted, AfterRetry;
    var s := Said(FormOf(responses, name, p), name, p);
    SinceRetryNext(heard, s);
    TellsNothing(INITIAL, before.events + [Retry]);
  }

  lemma TellsQuietly(responses: bool, before: Output, line: Line, name: EventType, heard: seq<Said>)
    requires Tells(before, name, heard) && !line.Data?
    ensures var o := Step(responses, before.decoder, line);
      Tells(Output(o.decoder, before.events + o.events), if line.EventName? then line.name else name, heard + [])
  {
    hide Emitted, AfterRetry, SinceRetry, TokensAt, ReasonAt, LastEnd, ChatSoFar, OutputSoFar;
    Empty(before.events);
    Empty(heard);
  }

  lemma {:induction false} RunTells(responses: bool, lines: seq<Line>)
    ensures Tells(Run(responses, INITIAL, lines), NameOf(responses, lines), Heard(responses, lines))
  {
    hide Tells, Step, Fold, IsRetry, FormOf;
    if lines == [] {
      NothingRuns(responses);
      TellsNothing(INITIAL, []);
    } else {
      var front, last := lines[..|lines| - 1], lines[|lines| - 1];
      var before := Run(responses, INITIAL, front);
      RunTells(responses, front);
      assert lines == front + [last];
      FoldLast(StepOf(responses), INITIAL, front, last);
      if !last.Data? {
        TellsQuietly(responses, before, last, NameOf(responses, front), Heard(responses, front));
      } else {
        var name := NameOf(responses, front);
        if IsRetry(Said(FormOf(responses, name, last.data), name, last.data)) {
          TellsRetry(responses, before, name, Heard(responses, front), last.data);
        } else {
          TellsSpoken(responses, before, name, Heard(responses, front), last.data);
        }
      }
    }
  }

  lemma NothingRuns(responses: bool)
    ensures Run(responses, INITIAL, []) == Output(INITIAL, [])
  {
  }

  // ---------------------------------------------------------------- behind the publisher

  lemma {:induction false} ForwardedSinceRetry(events: seq<Event>)
    ensures AfterRetry(Forwarded(events)) == Forwarded(AfterRetry(events))
  {
    if events != [] {
      var front, last := events[..|events| - 1], events[|events| - 1];
      ForwardedSinceRetry(front);
      if last.Usage? || last.Stop? {
        Empty(Forwarded(front));
        ForwardedEnds(AfterRetry(front), last);
      } else {
        assert (Forwarded(front) + [last])[..|Forwarded(front)|] == Forwarded(front);
        if !last.Retry? {
          ForwardedEnds(AfterRetry(front), last);
        }
      }
    }
  }

  lemma ForwardedEnds(events: seq<Event>, e: Event)
    ensures Forwarded(events + [e]) == if e.Usage? || e.Stop? then Forwarded(events) else Forwarded(events) + [e]
  {
    assert (events + [e])[..|events|] == events;
    Empty(Forwarded(events));
  }

  lemma {:induction false} ResumeSinceRetry(events: seq<Event>)
    ensures Resume(NOTHING_ASIDE, events) == Resume(NOTHING_ASIDE, AfterRetry(events))
  {
    if events != [] && !events[|events| - 1].Retry? {
      var front, last := events[..|events| - 1], events[|events| - 1];
      ResumeSinceRetry(front);
      assert (AfterRetry(front) + [last])[..|AfterRetry(front)|] == AfterRetry(front);
    }
  }

  /** What one line shows is forwarded as it is, and sets nothing aside but a failure. */
  lemma ShowsPass(said: seq<Said>, s: Said, a: Aside)
    ensures Forwarded(Shows(said, s)) == Shows(said, s)
    ensures Resume(a, Shows(said, s)) == a.(failed := a.failed || SaysError(s))
  {
    hide TextOf, ThinkingOf, Sends, FirstMessage, Forwarded, Resume, TextEvents, ThinkingEvents;
    var spoken := TextEvents(TextOf(said, s)) + ThinkingEvents(ThinkingOf(said, s)) + Sends(said, s);
    SendsAreCalls(said, s);
    SpokenIsQuiet(TextOf(said, s), ThinkingOf(said, s), Sends(said, s));
    AllPass(spoken, a);
    AllPass(ErrorsOf(s), a);
    ForwardedSplit(spoken, ErrorsOf(s));
    ResumeSplit(a, spoken, ErrorsOf(s));
    if SaysError(s) {
      ResumeOne(a, ErrorsOf(s)[0]);
    }
  }

  lemma SpokenIsQuiet(text: string, thinking: string, calls: seq<Event>)
    requires forall i :: 0 <= i < |calls| ==> calls[i].ToolCall?
    ensures forall i :: 0 <= i < |TextEvents(text) + ThinkingEvents(thinking) + calls| ==>
              var e := (TextEvents(text) + ThinkingEvents(thinking) + calls)[i];
              !e.Usage? && !e.Stop? && !e.Retry? && !e.Error?
  {
  }

  lemma SendsAreCalls(said: seq<Said>, s: Said)
    ensures forall i :: 0 <= i < |Sends(said, s)| ==> Sends(said, s)[i].ToolCall?
  {
    hide Flush, Named;
  }

  lemma {:induction false} AllPass(events: seq<Event>, a: Aside)
    requires forall i :: 0 <= i < |events| ==> !events[i].Usage? && !events[i].Stop? && !events[i].Retry?
    ensures Forwarded(events) == events
    ensures (forall i :: 0 <= i < |events| ==> !events[i].Error?) ==> Resume(a, events) == a
  {
    if events != [] {
      var front, last := events[..|events| - 1], events[|events| - 1];
      AllPass(front, a);
      assert events == front + [last];
      assert Forwarded(events) == Forwarded(front) + [last];
      assert Resume(a, events) == SetAside(Resume(a, front), last);
    }
  }

  lemma EndsPass(end: Option<End>, a: Aside)
    ensures Forwarded(EndEvents(end)) == []
    ensures Resume(a, EndEvents(end)) ==
            if end.None? then a
            else a.(usage := Some(Counted(end.value.tokens, end.value.stopped)), stop := Some(end.value.reason))
  {
    if end.Some? {
      var usage, stop := Usage(end.value.tokens, end.value.stopped), Stop(end.value.reason);
      assert EndEvents(end) == [usage] + [stop];
      ForwardedSplit([usage], [stop]);
      assert [usage][..0] == [] && [stop][..0] == [];
      ResumeSplit(a, [usage], [stop]);
      ResumeOne(a, usage);
      ResumeOne(SetAside(a, usage), stop);
    }
  }

  predicate SomeError(said: seq<Said>) {
    exists i :: 0 <= i < |said| && SaysError(said[i])
  }

  function AsideOf(said: seq<Said>): Aside {
    match LastEnd(said)
    case None => Aside(None, None, SomeError(said))
    case Some(end) => Aside(Some(Counted(end.tokens, end.stopped)), Some(end.reason), SomeError(said))
  }

  lemma SomeErrorNext(said: seq<Said>, s: Said)
    ensures SomeError(said + [s]) <==> SomeError(said) || SaysError(s)
  {
    hide SaysError;
    var all := said + [s];
    assert all[|said|] == s;
    assert forall i :: 0 <= i < |said| ==> all[i] == said[i];
  }

  lemma {:induction false} EmittedPasses(said: seq<Said>)
    ensures Forwarded(Emitted(said)) == Shown(said)
    ensures Resume(NOTHING_ASIDE, Emitted(said)) == AsideOf(said)
  {
    hide Shows, EndOf, SaysError, SomeError, EndEvents, LastEnd, Forwarded, Resume;
    if said == [] {
      NothingEmitted();
    } else {
      var front, s := said[..|said| - 1], said[|said| - 1];
      var shows, ends := Shows(front, s), EndEvents(EndOf(front, s));
      EmittedPasses(front);
      assert said == front + [s];
      ShowsPass(front, s, AsideOf(front));
      EndsPass(EndOf(front, s), AsideOf(front).(failed := AsideOf(front).failed || SaysError(s)));
      Associate(Emitted(front), shows, ends);
      ForwardedSplit(Emitted(front), shows + ends);
      ForwardedSplit(shows, ends);
      Empty(shows);
      ResumeSplit(NOTHING_ASIDE, Emitted(front), shows + ends);
      ResumeSplit(AsideOf(front), shows, ends);
      LastEndNext(front, s);
      SomeErrorNext(front, s);
    }
  }

  lemma NothingEmitted()
    ensures Emitted([]) == [] && Shown([]) == [] && Forwarded([]) == [] && Resume(NOTHING_ASIDE, []) == AsideOf([])
  {
  }

  // ---------------------------------------------------------------- main results

  /** The lines end a response and nothing says that anything went wrong. */
  predicate Succeeds(said: seq<Said>, ending: Ending, cancelled: bool) {
    LastEnd(said).Some? && !SomeError(said) && ending.None? && !cancelled
  }

  /** What is added when no more lines come: complaints, and the counts and reason of the last end. */
  function Finale(responses: bool, said: seq<Said>, ending: Ending, cancelled: bool): seq<Event> {
    var fine := Succeeds(said, ending, cancelled);
    (if ending.Some? then [Error(ending.value)] else []) +
    match LastEnd(said)
    case None => [Error(Interrupted(responses)), Stop("error")]
    case Some(end) => [Usage(end.tokens, end.stopped && fine), Stop(if fine then end.reason else "error")]
  }

  lemma ClosingPasses(responses: bool, d: Decoder, said: seq<Said>, ending: Ending)
    requires Knows(d, said)
    ensures var closing, a := Closing(responses, d, ending), AsideOf(said);
      var complaints := (if ending.Some? then [Error(ending.value)] else []) +
                        if LastEnd(said).None? then [Error(Interrupted(responses))] else [];
      && Forwarded(closing) == complaints
      && Resume(a, closing) == a.(failed := a.failed || ending.Some? || LastEnd(said).None?,
                                  stop := if LastEnd(said).None? then Some("error") else a.stop)
  {
    hide LastEnd, SomeError, Forwarded, Resume, TokensAt, ReasonAt, ChatSoFar, OutputSoFar, Interrupted;
    var a := AsideOf(said);
    var first := if ending.Some? then [Error(ending.value)] else [];
    var second := if d.stopEmitted then [] else [Error(Interrupted(responses))] + [Stop("error")];
    EndPieces(a, if ending.Some? then ending.value else "");
    var b := Resume(a, first);
    EndPieces(b, Interrupted(responses));
    ForwardedSplit(first, second);
    ResumeSplit(a, first, second);
    ForwardedSplit([Error(Interrupted(responses))], [Stop("error")]);
    ResumeSplit(b, [Error(Interrupted(responses))], [Stop("error")]);
    ResumeOne(SetAside(b, Error(Interrupted(responses))), Stop("error"));
    assert Closing(responses, d, ending) == first + second;
  }

  lemma EndPieces(a: Aside, message: string)
    ensures Forwarded([]) == [] && Resume(a, []) == a
    ensures Forwarded([Error(message)]) == [Error(message)] && Resume(a, [Error(message)]) == a.(failed := true)
    ensures Forwarded([Stop("error")]) == []
  {
    ResumeOne(a, Error(message));
    assert [Error(message)][..0] == [] && [Stop("error")][..0] == [];
  }

  lemma AfterRetryIsQuiet(responses: bool, d: Decoder, ending: Ending, a: Aside, cancelled: bool)
    ensures NoRetry(Closing(responses, d, ending)) && NoRetry(Final(a, cancelled))
  {
  }

  lemma FinaleIs(responses: bool, said: seq<Said>, ending: Ending, cancelled: bool, a: Aside)
    requires a == AsideOf(said).(failed := AsideOf(said).failed || ending.Some? || LastEnd(said).None?,
                                 stop := if LastEnd(said).None? then Some("error") else AsideOf(said).stop)
    ensures (if ending.Some? then [Error(ending.value)] else []) +
            (if LastEnd(said).None? then [Error(Interrupted(responses))] else []) + Final(a, cancelled) ==
            Finale(responses, said, ending, cancelled)
  {
    hide LastEnd, SomeError, Interrupted;
  }

  /**
   Everything that a consumer gets of a stream since the last retry, for each provider, line
   sequence, ending and cancellation: what the lines show, in order, and at the very end the
   counts and the reason of the end that was said last.
   */
  lemma ConsumerSees(responses: bool, lines: seq<Line>, ending: Ending, cancelled: bool)
    ensures var said := SinceRetry(Heard(responses, lines));
      AfterRetry(Published(Decode(responses, lines, ending), cancelled)) ==
      Shown(said) + Finale(responses, said, ending, cancelled)
  {
    hide Run, Holds, Knows, Forwarded, Resume, AfterRetry, Closing, Final, Finale, Shown, Emitted, NoRetry, SinceRetry, Heard,
         AsideOf, LastEnd;
    var said := SinceRetry(Heard(responses, lines));
    var run := Run(responses, INITIAL, lines);
    var closing := Closing(responses, run.decoder, ending);
    var decoded := Decode(responses, lines, ending);
    var aside := Resume(NOTHING_ASIDE, decoded);
    RunTells(responses, lines);
    AfterRetryIsQuiet(responses, run.decoder, ending, aside, cancelled);
    EmittedPasses(said);
    ClosingPasses(responses, run.decoder, said, ending);
    assert AfterRetry(decoded) == Emitted(said) + closing by {
      AfterRetrySplit(run.events, closing);
    }
    ResumeSinceRetry(decoded);
    ResumeSplit(NOTHING_ASIDE, Emitted(said), closing);
    FinaleIs(responses, said, ending, cancelled, aside);
    AfterRetrySplit(Forwarded(decoded), Final(aside, cancelled));
    ForwardedSinceRetry(decoded);
    ForwardedSplit(Emitted(said), closing);
    Associate(Shown(said), Forwarded(closing), Final(aside, cancelled));
  }

  // -------- text and thinking alone

  function TextIn(events: seq<Event>): string {
    if events == [] then ""
    else TextIn(events[..|events| - 1]) + if events[|events| - 1].Text? then events[|events| - 1].text else ""
  }

  function ThinkingIn(events: seq<Event>): string {
    if events == [] then ""
    else ThinkingIn(events[..|events| - 1]) + if events[|events| - 1].Thinking? then events[|events| - 1].text else ""
  }

  function TextSaid(said: seq<Said>): string {
    if said == [] then "" else TextSaid(said[..|said| - 1]) + TextOf(said[..|said| - 1], said[|said| - 1])
  }

  function ThinkingSaid(said: seq<Said>): string {
    if said == [] then "" else ThinkingSaid(said[..|said| - 1]) + ThinkingOf(said[..|said| - 1], said[|said| - 1])
  }

  lemma {:induction false} TextInSplit(a: seq<Event>, b: seq<Event>)
    ensures TextIn(a + b) == TextIn(a) + TextIn(b) && ThinkingIn(a + b) == ThinkingIn(a) + ThinkingIn(b)
  {
    if b == [] {
      Empty(a);
      Empty(TextIn(a));
      Empty(ThinkingIn(a));
    } else {
      var front, last := b[..|b| - 1], b[|b| - 1];
      assert (a + b)[..|a + b| - 1] == a + front;
      TextInSplit(a, front);
      Associate(TextIn(a), TextIn(front), if last.Text? then last.text else "");
      Associate(ThinkingIn(a), ThinkingIn(front), if last.Thinking? then last.text else "");
    }
  }

  lemma {:induction false} NothingIn(events: seq<Event>)
    requires forall i :: 0 <= i < |events| ==> !events[i].Text? && !events[i].Thinking?
    ensures TextIn(events) == "" && ThinkingIn(events) == ""
  {
    if events != [] { NothingIn(events[..|events| - 1]); }
  }

  lemma InTexts(text: string)
    ensures TextIn(TextEvents(text)) == text && ThinkingIn(TextEvents(text)) == ""
    ensures ThinkingIn(ThinkingEvents(text)) == text && TextIn(ThinkingEvents(text)) == ""
  {
    assert forall e: Event :: [e][..0] == [];
    Empty(text);
  }

  lemma InShows(said: seq<Said>, s: Said)
    ensures TextIn(Shows(said, s)) == TextOf(said, s) && ThinkingIn(Shows(said, s)) == ThinkingOf(said, s)
  {
    hide TextOf, ThinkingOf, Sends, FirstMessage, TextIn, ThinkingIn, TextEvents, ThinkingEvents;
    var text, thinking := TextOf(said, s), ThinkingOf(said, s);
    InTexts(text);
    InTexts(thinking);
    SendsAreCalls(said, s);
    NothingIn(Sends(said, s));
    NothingIn(ErrorsOf(s));
    TextInSplit(TextEvents(text), ThinkingEvents(thinking));
    TextInSplit(TextEvents(text) + ThinkingEvents(thinking), Sends(said, s));
    TextInSplit(TextEvents(text) + ThinkingEvents(thinking) + Sends(said, s), ErrorsOf(s));
    Empty(text);
    Empty(thinking);
  }

  lemma {:induction false} InShown(said: seq<Said>)
    ensures TextIn(Shown(said)) == TextSaid(said) && ThinkingIn(Shown(said)) == ThinkingSaid(said)
  {
    hide Shows, TextOf, ThinkingOf;
    if said != [] {
      var front, s := said[..|said| - 1], said[|said| - 1];
      InShown(front);
      InShows(front, s);
      TextInSplit(Shown(front), Shows(front, s));
    }
  }

  /** The text and the thinking of every stream: what a consumer joins since the last retry is what the lines say. */
  lemma EveryStreamText(responses: bool, lines: seq<Line>, ending: Ending, cancelled: bool)
    ensures var said := SinceRetry(Heard(responses, lines));
      var seen := AfterRetry(Published(Decode(responses, lines, ending), cancelled));
      TextIn(seen) == TextSaid(said) && ThinkingIn(seen) == ThinkingSaid(said)
  {
    hide Published, Decode, SinceRetry, Heard, AfterRetry, Shown, Finale, TextIn, ThinkingIn, TextSaid, ThinkingSaid;
    var said := SinceRetry(Heard(responses, lines));
    ConsumerSees(responses, lines, ending, cancelled);
    FinaleIsSilent(responses, said, ending, cancelled);
    NothingIn(Finale(responses, said, ending, cancelled));
    TextInSplit(Shown(said), Finale(responses, said, ending, cancelled));
    InShown(said);
    Empty(TextSaid(said));
    Empty(ThinkingSaid(said));
  }

  lemma FinaleIsSilent(responses: bool, said: seq<Said>, ending: Ending, cancelled: bool)
    ensures var finale := Finale(responses, said, ending, cancelled);
      forall i :: 0 <= i < |finale| ==> !finale[i].Text? && !finale[i].Thinking?
  {
  }

  predicate OnlyForm(said: seq<Said>, form: Form) {
    forall i :: 0 <= i < |said| ==> said[i].form == form
  }

  lemma BeyondNext(said: seq<Said>, s: Said)
    ensures ChatSoFar(said) + Beyond(ChatSoFar(said), ChatSoFar(said + [s])) == ChatSoFar(said + [s])
    ensures OutputSoFar(said) + Beyond(OutputSoFar(said), OutputSoFar(said + [s])) == OutputSoFar(said + [s])
  {
    hide ChatSoFar, OutputSoFar, Beyond, TrimLeft;
    ChatTextIs(said, s);
    OutputTextIs(said, s);
    Empty(TrimLeft(Content(s), {'\n'}));
    Empty(TrimLeft(OutputText(s), {'\n', '\r'}));
  }

  /** A stream of one form: all its text, without the line breaks it begins with, in any cut into lines. */
  lemma {:induction false} TextOfOneForm(said: seq<Said>)
    ensures OnlyForm(said, ChatForm) ==> TextSaid(said) == ChatSoFar(said)
    ensures OnlyForm(said, ResponsesForm) ==> TextSaid(said) == OutputSoFar(said)
  {
    hide ChatSoFar, OutputSoFar, Beyond;
    if said == [] {
      KnowsNothing();
      NothingSoFar();
    } else {
      var front, s := said[..|said| - 1], said[|said| - 1];
      assert said == front + [s];
      TextOfOneForm(front);
      BeyondNext(front, s);
    }
  }

  lemma NothingSoFar()
    ensures ChatSoFar([]) == "" && OutputSoFar([]) == ""
  {
  }

  /** The message of a failure is the first that says anything, or the standing one of its kind. */
  lemma {:induction false} FirstMessageIs(messages: seq<string>, fallback: string) returns (i: nat)
    ensures i <= |messages| && (forall j :: 0 <= j < i ==> messages[j] == "")
    ensures i < |messages| ==> messages[i] != "" && FirstMessage(messages, fallback) == messages[i]
    ensures i == |messages| ==> FirstMessage(messages, fallback) == fallback
  {
    i := 0;
    if messages != [] && messages[0] == "" {
      var rest := messages[1..];
      var k := FirstMessageIs(rest, fallback);
      i := k + 1;
      assert forall j :: 0 < j < i ==> messages[j] == rest[j - 1];
    }
  }

  lemma FailureMessage(s: Said)
    requires Fails(s)
    ensures ErrorsOf(s) == [Error(ErrorsOf(s)[0].message)] && IsMessage(s, ErrorsOf(s)[0].message)
    ensures forall text :: IsMessage(s, text) ==> text == ErrorsOf(s)[0].message
  {
    hide FirstMessage;
    var messages := s.data.response.value.messages;
    var i := FirstMessageIs(messages, DefaultMessage(s.name));
    if i < |messages| {
      assert messages[i] != "";
    }
  }
}
