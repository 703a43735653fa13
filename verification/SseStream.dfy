/** The Go stream decoder and the publisher behind it. */
module SseStream {
  import opened Options
  import opened Sequences
  import opened TokenCounts
  import opened ToolReassembly

  datatype Event =
    | Text(text: string)
    | Thinking(text: string)
    | ToolCall(name: string, id: string, input: string)
    | Usage(tokens: Tokens, stopped: bool)
    | Stop(reason: string)
    | Error(message: string)
    | Retry

  datatype ResponseKind =
    | ReasoningDelta | OutputTextDelta | ItemChanged | ArgumentsDelta | Completed | Failed | Incomplete | OtherResponse

  /** The event names the decoder tells apart. */
  datatype EventType =
    | NoEvent | BlockStart | BlockDelta | BlockStop | MessageStart | MessageDelta | MessageStop
    | ErrorEvent | RetryEvent | Response(kind: ResponseKind) | OtherEvent

  datatype Block = NoBlock | TextBlock | ThinkingBlock | ToolBlock

  datatype BlockView = BlockView(kind: Block, name: string, id: string)

  datatype Choice = Choice(content: string, deltas: seq<Delta>, finish: Option<string>)

  datatype Chunk = Chunk(prompt: int, completion: int, cached: int, choices: seq<Choice>)

  datatype Item = Item(isCall: bool, id: string, callId: string, name: string, arguments: string)

  datatype Reported = Reported(input: int, output: int, cached: int, cachedDetail: int)

  datatype ResponseView = ResponseView(
    delta: string, index: Index, itemId: string, item: Item, nested: Reported, root: Reported, messages: seq<string>)

  /** What the code extracts from one data line; zero values where decoding fails. */
  datatype Payload = Payload(
    done: bool, mentionsChoices: bool,
    block: BlockView, text: string, thinking: string, partialJSON: string,
    stopReason: string, message: string, deltaUsage: Tokens, startUsage: Tokens,
    chunk: Option<Chunk>, response: Option<ResponseView>)

  datatype Line = Skipped | EventName(name: EventType) | Data(data: Payload)

  // ---------------------------------------------------------------- the decoder's state and steps

  // The decoder turns the lines of a server-sent event stream into events. How a data
  // line decodes as JSON enters as the fields the code extracts from it.

  datatype Chat = Chat(started: bool, calls: Pending)

  datatype Responses = Responses(started: bool, calls: Pending, itemIndexes: map<string, Index>)

  datatype Decoder = Decoder(
    stopEmitted: bool, eventType: EventType, block: Block, toolName: string, toolID: string, partialJSON: string,
    stopReason: string, tokens: Tokens, chat: Chat, responses: Responses)

  const INITIAL := Decoder(
    false, NoEvent, NoBlock, "", "", "", "", NO_TOKENS, Chat(false, map[]), Responses(false, map[], map[]))

  datatype Output = Output(decoder: Decoder, events: seq<Event>)

  function TextEvents(text: string): seq<Event> {
    if text != "" then [Text(text)] else []
  }

  function ThinkingEvents(text: string): seq<Event> {
    if text != "" then [Thinking(text)] else []
  }

  function TrimLeft(text: string, cutset: set<char>): string {
    if text != "" && text[0] in cutset then TrimLeft(text[1..], cutset) else text
  }

  // -------- Claude events

  function DeltaUsage(t: Tokens, u: Tokens): Tokens {
    Tokens(if t.input == 0 then Positive(u.input, 0) else t.input,
           Positive(u.output, t.output),
           if t.cacheRead == 0 then Positive(u.cacheRead, 0) else t.cacheRead,
           if t.cacheWrite == 0 then Positive(u.cacheWrite, 0) else t.cacheWrite)
  }

  function StartUsage(t: Tokens, u: Tokens): Tokens {
    Tokens(Positive(u.input, t.input), t.output, Positive(u.cacheRead, t.cacheRead), Positive(u.cacheWrite, t.cacheWrite))
  }

  function BlockDeltaStep(d: Decoder, p: Payload): Output {
    match d.block
    case TextBlock => Output(d, TextEvents(p.text))
    case ThinkingBlock => Output(d, ThinkingEvents(p.thinking))
    case ToolBlock => Output(d.(partialJSON := d.partialJSON + p.partialJSON), [])
    case NoBlock => Output(d, [])
  }

  function OrEmptyObject(json: string): string {
    if json == "" then "{}" else json
  }

  function BlockStopStep(d: Decoder): Output {
    if d.block == ToolBlock then
      Output(d.(block := NoBlock, partialJSON := ""), [ToolCall(d.toolName, d.toolID, OrEmptyObject(d.partialJSON))])
    else
      Output(d.(block := NoBlock), [])
  }

  function ClaudeStep(d: Decoder, p: Payload): Output {
    match d.eventType
    case BlockStart => Output(d.(block := p.block.kind, toolName := p.block.name, toolID := p.block.id), [])
    case BlockDelta => BlockDeltaStep(d, p)
    case BlockStop => BlockStopStep(d)
    case MessageDelta =>
      Output(d.(stopReason := if p.stopReason != "" then p.stopReason else d.stopReason,
                tokens := DeltaUsage(d.tokens, p.deltaUsage)), [])
    case MessageStart => Output(d.(tokens := StartUsage(d.tokens, p.startUsage)), [])
    case MessageStop => Output(d.(stopEmitted := true), [Usage(d.tokens, true), Stop(d.stopReason)])
    case ErrorEvent => Output(d, [Error(p.message)])
    case RetryEvent => Output(INITIAL, [Retry])
    case _ => Output(d, [])
  }

  // -------- OpenAI chunks

  function Emitting(slots: seq<Slot>): seq<Event> {
    seq(|slots|, i requires 0 <= i < |slots| =>
      ToolCall(slots[i].call.name, slots[i].call.id, slots[i].call.arguments))
  }

  function StopName(reason: string): string {
    if reason == "stop" then "end_turn"
    else if reason == "tool_calls" then "tool_use"
    else if reason == "length" then "max_tokens"
    else reason
  }

  ghost function DoneStep(d: Decoder): Output {
    Output(d.(stopEmitted := true, chat := d.chat.(calls := map[])),
           Emitting(Flush(d.chat.calls)) + [Usage(d.tokens, true), Stop(StopName(d.stopReason))])
  }

  function ChunkUsage(t: Tokens, c: Chunk): Tokens {
    t.(input := Positive(c.prompt, t.input), output := Positive(c.completion, t.output),
       cacheRead := Positive(c.cached, t.cacheRead))
  }

  function ChatText(chat: Chat, content: string): string {
    if chat.started then content else TrimLeft(content, {'\n'})
  }

  predicate Finishes(c: Choice) {
    c.finish == Some("tool_calls")
  }

  ghost function ChoiceStep(d: Decoder, c: Choice): Output {
    var text := ChatText(d.chat, c.content);
    var calls := AddAll(d.chat.calls, c.deltas);
    var d' := d.(stopReason := if c.finish.Some? then c.finish.value else d.stopReason,
                 chat := Chat(d.chat.started || text != "", if Finishes(c) then map[] else calls));
    Output(d', TextEvents(text) + if Finishes(c) then Emitting(Flush(calls)) else [])
  }

  ghost function ChatStep(d: Decoder, p: Payload): Output {
    if p.done then DoneStep(d)
    else if p.chunk.None? then Output(d, [])
    else
      var d' := d.(tokens := ChunkUsage(d.tokens, p.chunk.value));
      if p.chunk.value.choices == [] then Output(d', []) else ChoiceStep(d', p.chunk.value.choices[0])
  }

  // -------- Responses events

  function Recorded(t: Tokens, r: ResponseView): Tokens {
    var u := if r.nested.input == 0 && r.nested.output == 0 then r.root else r.nested;
    var cached := if u.cachedDetail != 0 then u.cachedDetail else u.cached;
    Tokens(if u.input - cached < 0 then 0 else u.input - cached, u.output, cached, t.cacheWrite)
  }

  function FirstMessage(messages: seq<string>, fallback: string): string {
    if messages == [] then fallback
    else if messages[0] != "" then messages[0]
    else FirstMessage(messages[1..], fallback)
  }

  function DefaultMessage(e: EventType): string {
    if e == Response(Incomplete) then "Response incomplete"
    else if e == ErrorEvent then "Stream error"
    else "Response failed"
  }

  function NoteItem(rs: Responses, r: ResponseView): Responses {
    var itemId := if r.itemId != "" then r.itemId else r.item.id;
    var call := if r.index in rs.calls then rs.calls[r.index] else NO_CALL;
    rs.(itemIndexes := if itemId != "" then rs.itemIndexes[itemId := r.index] else rs.itemIndexes,
        calls := rs.calls[r.index := Call(if r.item.callId != "" then r.item.callId else call.id,
                                          if r.item.name != "" then r.item.name else call.name,
                                          if r.item.arguments != "" then r.item.arguments else call.arguments)])
  }

  function NoteArguments(rs: Responses, r: ResponseView): Responses {
    var index := if r.itemId != "" && r.itemId in rs.itemIndexes then rs.itemIndexes[r.itemId] else r.index;
    rs.(calls := Add(rs.calls, Delta(index, "", "", r.delta)))
  }

  /** The calls of a Responses stream: an unnamed one is dropped, missing arguments become an empty object. */
  function Named(pending: Pending): Pending {
    map x | x in pending && pending[x].name != "" && pending[x].id != "" ::
      pending[x].(arguments := OrEmptyObject(pending[x].arguments))
  }

  ghost function CompletedStep(d: Decoder, r: ResponseView): Output {
    var tokens := Recorded(d.tokens, r);
    Output(d.(stopEmitted := true, tokens := tokens, responses := d.responses.(calls := map[])),
           Emitting(Flush(Named(d.responses.calls))) +
           [Usage(tokens.(cacheWrite := 0), true), Stop(if d.responses.calls != map[] then "tool_use" else "end_turn")])
  }

  function FailedStep(d: Decoder, r: ResponseView): Output {
    var tokens := Recorded(d.tokens, r);
    Output(d.(stopEmitted := true, tokens := tokens),
           [Error(FirstMessage(r.messages, DefaultMessage(d.eventType))), Usage(tokens.(cacheWrite := 0), false),
            Stop("error")])
  }

  predicate IsResponseEvent(e: EventType) {
    e.Response? || e.ErrorEvent?
  }

  ghost function ResponseStep(d: Decoder, p: Payload): Output
    requires IsResponseEvent(d.eventType)
  {
    if p.response.None? then Output(d, [])
    else
      var r := p.response.value;
      match d.eventType
      case Response(ReasoningDelta) => Output(d, ThinkingEvents(r.delta))
      case Response(OutputTextDelta) =>
        var text := if d.responses.started then r.delta else TrimLeft(r.delta, {'\n', '\r'});
        Output(d.(responses := d.responses.(started := d.responses.started || text != "")), TextEvents(text))
      case Response(ItemChanged) =>
        Output(if r.item.isCall then d.(responses := NoteItem(d.responses, r)) else d, [])
      case Response(ArgumentsDelta) => Output(d.(responses := NoteArguments(d.responses, r)), [])
      case Response(Completed) => CompletedStep(d, r)
      case Response(OtherResponse) => Output(d, [])
      case _ => FailedStep(d, r)
  }

  // -------- one line, all lines

  ghost function Step(responses: bool, d: Decoder, line: Line): Output {
    match line
    case Skipped => Output(d, [])
    case EventName(name) => Output(d.(eventType := name), [])
    case Data(p) =>
      if responses && IsResponseEvent(d.eventType) then ResponseStep(d, p)
      else if p.mentionsChoices || p.done then ChatStep(d, p)
      else ClaudeStep(d, p)
  }

  ghost function Fold(step: (Decoder, Line) -> Output, d: Decoder, lines: seq<Line>): Output
    decreases |lines|
  {
    if lines == [] then Output(d, [])
    else
      var first := step(d, lines[0]);
      var rest := Fold(step, first.decoder, lines[1..]);
      Output(rest.decoder, first.events + rest.events)
  }

  ghost function StepOf(responses: bool): (Decoder, Line) -> Output {
    (d, line) => Step(responses, d, line)
  }

  ghost function Run(responses: bool, d: Decoder, lines: seq<Line>): Output {
    Fold(StepOf(responses), d, lines)
  }

  /** How reading ended: at the end of the body, or with the error of the scanner or of the cancelled context. */
  type Ending = Option<string>

  function Interrupted(responses: bool): string {
    if responses then "Stream interrupted (no response.completed received)"
    else "Stream interrupted (no message_stop received)"
  }

  function Closing(responses: bool, d: Decoder, ending: Ending): seq<Event> {
    (if ending.Some? then [Error(ending.value)] else []) +
    if d.stopEmitted then [] else [Error(Interrupted(responses)), Stop("error")]
  }

  ghost function Decode(responses: bool, lines: seq<Line>, ending: Ending): seq<Event> {
    var run := Run(responses, INITIAL, lines);
    run.events + Closing(responses, run.decoder, ending)
  }

  // ---------------------------------------------------------------- the publisher

  // It holds usage and stop back until the stream has ended, so that exactly one stop
  // comes out, and last.

  /** What the publisher has set aside. */
  datatype Counted = Counted(tokens: Tokens, stopped: bool)

  datatype Aside = Aside(usage: Option<Counted>, stop: Option<string>, failed: bool)

  const NOTHING_ASIDE := Aside(None, None, false)

  function SetAside(a: Aside, e: Event): Aside {
    match e
    case Usage(tokens, stopped) => a.(usage := Some(Counted(tokens, stopped)))
    case Stop(reason) => a.(stop := Some(reason))
    case Error(_) => a.(failed := true)
    case Retry => NOTHING_ASIDE
    case _ => a
  }

  function Resume(a: Aside, events: seq<Event>): Aside {
    if events == [] then a else SetAside(Resume(a, events[..|events| - 1]), events[|events| - 1])
  }

  function Forwarded(events: seq<Event>): seq<Event> {
    if events == [] then []
    else
      var last := events[|events| - 1];
      Forwarded(events[..|events| - 1]) + if last.Usage? || last.Stop? then [] else [last]
  }

  function Final(a: Aside, cancelled: bool): seq<Event> {
    var failed := a.failed || cancelled;
    (if a.usage.Some? then [Usage(a.usage.value.tokens, a.usage.value.stopped && !failed)] else []) +
    if failed then [Stop("error")] else if a.stop.Some? then [Stop(a.stop.value)] else []
  }

  function Published(events: seq<Event>, cancelled: bool): seq<Event> {
    Forwarded(events) + Final(Resume(NOTHING_ASIDE, events), cancelled)
  }

  // ---------------------------------------------------------------- folding over pieces

  lemma {:induction false} ResumeSplit(a: Aside, x: seq<Event>, y: seq<Event>)
    ensures Resume(a, x + y) == Resume(Resume(a, x), y)
  {
    if y == [] {
      assert x + y == x;
    } else {
      assert (x + y)[..|x + y| - 1] == x + y[..|y| - 1];
      ResumeSplit(a, x, y[..|y| - 1]);
    }
  }

  lemma ResumeOne(a: Aside, e: Event)
    ensures Resume(a, [e]) == SetAside(a, e)
  {
    assert [e][..0] == [];
  }

  lemma {:induction false} ForwardedSplit(x: seq<Event>, y: seq<Event>)
    ensures Forwarded(x + y) == Forwarded(x) + Forwarded(y)
  {
    if y == [] {
      assert x + y == x;
    } else {
      assert (x + y)[..|x + y| - 1] == x + y[..|y| - 1];
      ForwardedSplit(x, y[..|y| - 1]);
    }
  }

  lemma {:induction false} FoldSplit(step: (Decoder, Line) -> Output, d: Decoder, x: seq<Line>, y: seq<Line>)
    ensures var first := Fold(step, d, x);
      var rest := Fold(step, first.decoder, y);
      Fold(step, d, x + y) == Output(rest.decoder, first.events + rest.events)
    decreases |x|
  {
    if x == [] {
      assert x + y == y;
    } else {
      assert (x + y)[1..] == x[1..] + y && (x + y)[0] == x[0];
      FoldSplit(step, step(d, x[0]).decoder, x[1..], y);
    }
  }

  lemma RunNext(responses: bool, d: Decoder, line: Line, lines: seq<Line>)
    ensures var first := Step(responses, d, line);
      var rest := Run(responses, first.decoder, lines);
      Run(responses, d, [line] + lines) == Output(rest.decoder, first.events + rest.events)
  {
    assert ([line] + lines)[1..] == lines;
    assert StepOf(responses)(d, line) == Step(responses, d, line);
  }

  // ---------------------------------------------------------------- a terminal line always leaves a stop

  lemma {:induction false} CallsSetNothingAside(a: Aside, calls: seq<Event>)
    requires forall i :: 0 <= i < |calls| ==> calls[i].ToolCall?
    ensures Resume(a, calls) == a
  {
    if calls != [] { CallsSetNothingAside(a, calls[..|calls| - 1]); }
  }

  lemma TerminalLeavesStop(a: Aside, slots: seq<Slot>, usage: Event, stop: Event)
    requires usage.Usage? && stop.Stop?
    ensures Resume(a, Emitting(slots) + [usage, stop]) ==
            a.(usage := Some(Counted(usage.tokens, usage.stopped)), stop := Some(stop.reason))
  {
    CallsSetNothingAside(a, Emitting(slots));
    ResumeSplit(a, Emitting(slots), [usage, stop]);
    ResumeSplit(a, [usage], [stop]);
    ResumeOne(a, usage);
    ResumeOne(SetAside(a, usage), stop);
    assert [usage, stop] == [usage] + [stop];
  }

  predicate Settled(d: Decoder, a: Aside) {
    d.stopEmitted ==> a.stop.Some?
  }

  lemma ChatSettles(d: Decoder, p: Payload, a: Aside)
    requires Settled(d, a)
    ensures Settled(ChatStep(d, p).decoder, Resume(a, ChatStep(d, p).events))
  {
    if p.done {
      TerminalLeavesStop(a, Flush(d.chat.calls), Usage(d.tokens, true), Stop(StopName(d.stopReason)));
    } else if p.chunk.Some? && p.chunk.value.choices != [] {
      var d' := d.(tokens := ChunkUsage(d.tokens, p.chunk.value));
      ChoiceSettles(d', p.chunk.value.choices[0], a);
    }
  }

  lemma ChoiceSettles(d: Decoder, c: Choice, a: Aside)
    ensures Resume(a, ChoiceStep(d, c).events) == a
    ensures ChoiceStep(d, c).decoder.stopEmitted == d.stopEmitted
  {
    var text := TextEvents(ChatText(d.chat, c.content));
    var calls := Emitting(Flush(AddAll(d.chat.calls, c.deltas)));
    CallsSetNothingAside(a, calls);
    TextSetsNothingAside(a, ChatText(d.chat, c.content));
    ResumeSplit(a, text, calls);
    ResumeSplit(a, text, []);
  }

  lemma TextSetsNothingAside(a: Aside, text: string)
    ensures Resume(a, TextEvents(text)) == a
    ensures Resume(a, ThinkingEvents(text)) == a
  {
    ResumeOne(a, Text(text));
    ResumeOne(a, Thinking(text));
  }

  lemma ResponseSettles(d: Decoder, p: Payload, a: Aside)
    requires IsResponseEvent(d.eventType) && Settled(d, a)
    ensures Settled(ResponseStep(d, p).decoder, Resume(a, ResponseStep(d, p).events))
  {
    if p.response.Some? {
      var r := p.response.value;
      match d.eventType
      case Response(ReasoningDelta) => TextSetsNothingAside(a, r.delta);
      case Response(OutputTextDelta) =>
        TextSetsNothingAside(a, if d.responses.started then r.delta else TrimLeft(r.delta, {'\n', '\r'}));
      case Response(Completed) =>
        TerminalLeavesStop(a, Flush(Named(d.responses.calls)),
                           Usage(Recorded(d.tokens, r).(cacheWrite := 0), true),
                           Stop(if d.responses.calls != map[] then "tool_use" else "end_turn"));
      case Response(ItemChanged) =>
      case Response(ArgumentsDelta) =>
      case Response(OtherResponse) =>
      case _ => FailureSettles(d, r, a);
    }
  }

  lemma FailureSettles(d: Decoder, r: ResponseView, a: Aside)
    ensures Resume(a, FailedStep(d, r).events).stop.Some?
  {
    var events := FailedStep(d, r).events;
    assert events[|events| - 1].Stop?;
  }

  lemma ClaudeSettles(d: Decoder, p: Payload, a: Aside)
    requires Settled(d, a)
    ensures Settled(ClaudeStep(d, p).decoder, Resume(a, ClaudeStep(d, p).events))
  {
    TextSetsNothingAside(a, p.text);
    TextSetsNothingAside(a, p.thinking);
    ResumeOne(a, Error(p.message));
    ResumeOne(a, ToolCall(d.toolName, d.toolID, OrEmptyObject(d.partialJSON)));
    if d.eventType == MessageStop {
      var events := ClaudeStep(d, p).events;
      assert events[|events| - 1].Stop?;
    }
  }

  lemma {:induction false} RunSettles(responses: bool, d: Decoder, lines: seq<Line>, a: Aside)
    requires Settled(d, a)
    ensures Settled(Run(responses, d, lines).decoder, Resume(a, Run(responses, d, lines).events))
    decreases |lines|
  {
    if lines != [] {
      var first := Step(responses, d, lines[0]);
      if lines[0].Data? {
        var p := lines[0].data;
        if responses && IsResponseEvent(d.eventType) {
          ResponseSettles(d, p, a);
        } else if p.mentionsChoices || p.done {
          ChatSettles(d, p, a);
        } else {
          ClaudeSettles(d, p, a);
        }
      }
      assert lines == [lines[0]] + lines[1..];
      RunNext(responses, d, lines[0], lines[1..]);
      RunSettles(responses, first.decoder, lines[1..], Resume(a, first.events));
      ResumeSplit(a, first.events, Run(responses, first.decoder, lines[1..]).events);
    }
  }

  /** However a stream ends, its decoding leaves a stop with the publisher. */
  lemma DecodeLeavesStop(responses: bool, lines: seq<Line>, ending: Ending)
    ensures Resume(NOTHING_ASIDE, Decode(responses, lines, ending)).stop.Some?
  {
    var run := Run(responses, INITIAL, lines);
    RunSettles(responses, INITIAL, lines, NOTHING_ASIDE);
    var a := Resume(NOTHING_ASIDE, run.events);
    ResumeSplit(NOTHING_ASIDE, run.events, Closing(responses, run.decoder, ending));
    if run.decoder.stopEmitted {
      if ending.Some? {
        assert Closing(responses, run.decoder, ending) == [Error(ending.value)];
        ResumeOne(a, Error(ending.value));
      }
    } else {
      var closing := Closing(responses, run.decoder, ending);
      assert closing[|closing| - 1].Stop?;
    }
  }

  // ---------------------------------------------------------------- what the publisher sends

  /** Some error was not followed by a retry. */
  predicate ErrorSinceRetry(events: seq<Event>) {
    exists i :: 0 <= i < |events| && events[i].Error? && forall j :: i < j < |events| ==> !events[j].Retry?
  }

  /** The reason of a stop that no later stop replaces and no later retry cancels. */
  predicate IsLastStop(events: seq<Event>, reason: string) {
    exists i :: 0 <= i < |events| && events[i] == Stop(reason) &&
      forall j :: i < j < |events| ==> !events[j].Stop? && !events[j].Retry?
  }

  lemma ErrorNext(events: seq<Event>, e: Event)
    ensures ErrorSinceRetry(events + [e]) == (e.Error? || (!e.Retry? && ErrorSinceRetry(events)))
  {
    var all := events + [e];
    assert all[|events|] == e;
    if e.Error? {
      assert ErrorSinceRetry(all);
    } else if ErrorSinceRetry(all) {
      var i :| 0 <= i < |all| && all[i].Error? && forall j :: i < j < |all| ==> !all[j].Retry?;
      assert events[i].Error? && forall j :: i < j < |events| ==> events[j] == all[j];
    }
    if !e.Retry? && ErrorSinceRetry(events) {
      var i :| 0 <= i < |events| && events[i].Error? && forall j :: i < j < |events| ==> !events[j].Retry?;
      assert all[i].Error?;
    }
  }

  lemma {:induction false} FailedMeans(events: seq<Event>)
    ensures Resume(NOTHING_ASIDE, events).failed <==> ErrorSinceRetry(events)
  {
    if events != [] {
      var n := |events| - 1;
      FailedMeans(events[..n]);
      ErrorNext(events[..n], events[n]);
      assert events == events[..n] + [events[n]];
    }
  }

  lemma {:induction false} StopMeans(events: seq<Event>)
    ensures var a := Resume(NOTHING_ASIDE, events); a.stop.Some? ==> IsLastStop(events, a.stop.value)
  {
    if events != [] {
      var n := |events| - 1;
      var a := Resume(NOTHING_ASIDE, events);
      StopMeans(events[..n]);
      if a.stop.Some? {
        if events[n].Stop? {
          assert events[n] == Stop(a.stop.value);
        } else {
          var i :| 0 <= i < n && events[..n][i] == Stop(a.stop.value) &&
            forall j :: i < j < n ==> !events[..n][j].Stop? && !events[..n][j].Retry?;
          assert events[i] == Stop(a.stop.value);
          forall j | i < j < |events|
            ensures !events[j].Stop? && !events[j].Retry?
          {
            assert j < n ==> events[..n][j] == events[j];
          }
        }
      }
    }
  }

  lemma {:induction false} ForwardedIsOpen(events: seq<Event>)
    ensures forall i :: 0 <= i < |Forwarded(events)| ==> !Forwarded(events)[i].Stop? && !Forwarded(events)[i].Usage?
  {
    if events != [] { ForwardedIsOpen(events[..|events| - 1]); }
  }

  lemma ForwardedOne(e: Event)
    ensures Forwarded([e]) == if e.Usage? || e.Stop? then [] else [e]
  {
    assert [e][..0] == [];
  }

  lemma {:induction false} ForwardedKeepsFailure(events: seq<Event>)
    ensures Resume(NOTHING_ASIDE, Forwarded(events)).failed == Resume(NOTHING_ASIDE, events).failed
  {
    if events != [] {
      hide Resume, Forwarded;
      var front, last := events[..|events| - 1], events[|events| - 1];
      ForwardedKeepsFailure(front);
      assert events == front + [last];
      ForwardedSplit(front, [last]);
      ForwardedOne(last);
      ResumeSplit(NOTHING_ASIDE, front, [last]);
      ResumeOne(Resume(NOTHING_ASIDE, front), last);
      if last.Usage? || last.Stop? {
        Empty(Forwarded(front));
      } else {
        ResumeSplit(NOTHING_ASIDE, Forwarded(front), [last]);
        ResumeOne(Resume(NOTHING_ASIDE, Forwarded(front)), last);
      }
    }
  }

  ghost predicate WellShaped(out: seq<Event>, decoded: seq<Event>, failed: bool) {
    && out != []
    && out[|out| - 1].Stop?
    && (forall i :: 0 <= i < |out| - 1 ==> !out[i].Stop?)
    && (forall i :: 0 <= i < |out| && out[i].Usage? ==> i == |out| - 2)
    && (failed ==> out[|out| - 1] == Stop("error"))
    && (!failed ==> IsLastStop(decoded, out[|out| - 1].reason))
    && (forall i :: 0 <= i < |out| && out[i].Usage? && out[i].stopped ==> !failed)
  }

  /**
   For every line sequence, ending and cancellation the consumer sees exactly one stop, last;
   at most one usage, directly before it; the stop is forced to "error" when an error was sent
   since the last retry or the context was cancelled, and is the stream's own otherwise; and a
   usage that says the stream stopped normally means that it did.
   */
  lemma PublishedShape(responses: bool, lines: seq<Line>, ending: Ending, cancelled: bool)
    ensures var decoded := Decode(responses, lines, ending);
      var out := Published(decoded, cancelled);
      WellShaped(out, decoded, ErrorSinceRetry(out) || cancelled)
  {
    var decoded := Decode(responses, lines, ending);
    var a := Resume(NOTHING_ASIDE, decoded);
    DecodeLeavesStop(responses, lines, ending);
    StopMeans(decoded);
    ForwardedIsOpen(decoded);
    ForwardedKeepsFailure(decoded);
    FinalKeepsFailure(Forwarded(decoded), a, cancelled);
    FailedMeans(Published(decoded, cancelled));
    FinalShape(Forwarded(decoded), a, cancelled, decoded);
  }

  lemma FinalShape(front: seq<Event>, a: Aside, cancelled: bool, decoded: seq<Event>)
    requires forall i :: 0 <= i < |front| ==> !front[i].Stop? && !front[i].Usage?
    requires a.stop.Some? && IsLastStop(decoded, a.stop.value)
    ensures WellShaped(front + Final(a, cancelled), decoded, a.failed || cancelled)
  {
  }

  lemma {:induction false} QuietKeepsFailure(a: Aside, events: seq<Event>)
    requires forall i :: 0 <= i < |events| ==> !events[i].Error? && !events[i].Retry?
    ensures Resume(a, events).failed == a.failed
  {
    if events != [] { QuietKeepsFailure(a, events[..|events| - 1]); }
  }

  lemma FinalKeepsFailure(out: seq<Event>, a: Aside, cancelled: bool)
    ensures Resume(NOTHING_ASIDE, out + Final(a, cancelled)).failed == Resume(NOTHING_ASIDE, out).failed
  {
    hide Resume;
    var final := Final(a, cancelled);
    ResumeSplit(NOTHING_ASIDE, out, final);
    QuietKeepsFailure(Resume(NOTHING_ASIDE, out), final);
  }

  // ---------------------------------------------------------------- a retry forgets

  lemma RetryLine(responses: bool, d: Decoder, p: Payload)
    requires !p.done && !p.mentionsChoices && d.eventType == RetryEvent
    ensures Run(responses, d, [Data(p)]) == Output(INITIAL, [Retry])
  {
    assert [Data(p)] == [Data(p)] + [];
    RunNext(responses, d, Data(p), []);
  }

  lemma {:induction false} BlankLines(responses: bool, d: Decoder, gap: seq<Line>)
    requires forall i :: 0 <= i < |gap| ==> gap[i].Skipped?
    ensures Run(responses, d, gap) == Output(d, [])
    decreases |gap|
  {
    if gap != [] {
      assert gap == [gap[0]] + gap[1..];
      RunNext(responses, d, gap[0], gap[1..]);
      BlankLines(responses, d, gap[1..]);
    }
  }

  /** The lines of a retry: its name, perhaps blank lines, and any data. */
  function RetryLines(gap: seq<Line>, p: Payload): seq<Line> {
    [EventName(RetryEvent)] + gap + [Data(p)]
  }

  lemma RetryRuns(responses: bool, d: Decoder, gap: seq<Line>, p: Payload)
    requires !p.done && !p.mentionsChoices && forall i :: 0 <= i < |gap| ==> gap[i].Skipped?
    ensures Run(responses, d, RetryLines(gap, p)) == Output(INITIAL, [Retry])
  {
    hide Fold, StepOf;
    var named := d.(eventType := RetryEvent);
    Associate([EventName(RetryEvent)], gap, [Data(p)]);
    RunNext(responses, d, EventName(RetryEvent), gap + [Data(p)]);
    FoldSplit(StepOf(responses), named, gap, [Data(p)]);
    BlankLines(responses, named, gap);
    RetryLine(responses, named, p);
    Empty([Retry]);
  }

  lemma DecodeForgets(responses: bool, first: seq<Line>, gap: seq<Line>, p: Payload, second: seq<Line>, ending: Ending)
    requires !p.done && !p.mentionsChoices && forall i :: 0 <= i < |gap| ==> gap[i].Skipped?
    ensures Decode(responses, first + RetryLines(gap, p) + second, ending) ==
            Run(responses, INITIAL, first).events + [Retry] + Decode(responses, second, ending)
  {
    hide RetryLines, Fold, StepOf, Closing;
    var retry := RetryLines(gap, p);
    var before, after := Run(responses, INITIAL, first), Run(responses, INITIAL, second);
    FoldSplit(StepOf(responses), INITIAL, first + retry, second);
    FoldSplit(StepOf(responses), INITIAL, first, retry);
    RetryRuns(responses, before.decoder, gap, p);
    Associate(before.events + [Retry], after.events, Closing(responses, after.decoder, ending));
  }

  /**
   After a retry the stream is decoded as if it had just begun: the events after the retry
   are those of the second part alone, and so are those that the consumer sees after it.
   */
  lemma RetryForgets(responses: bool, first: seq<Line>, gap: seq<Line>, p: Payload, second: seq<Line>,
                     ending: Ending, cancelled: bool)
    requires !p.done && !p.mentionsChoices && forall i :: 0 <= i < |gap| ==> gap[i].Skipped?
    ensures var all := Decode(responses, first + RetryLines(gap, p) + second, ending);
      var before := Run(responses, INITIAL, first).events;
      && all == before + [Retry] + Decode(responses, second, ending)
      && Published(all, cancelled) ==
         Forwarded(before) + [Retry] + Published(Decode(responses, second, ending), cancelled)
  {
    DecodeForgets(responses, first, gap, p, second, ending);
    PublishedAfterRetry(Run(responses, INITIAL, first).events, Decode(responses, second, ending), cancelled);
  }

  lemma PublishedAfterRetry(before: seq<Event>, after: seq<Event>, cancelled: bool)
    ensures Published(before + [Retry] + after, cancelled) == Forwarded(before) + [Retry] + Published(after, cancelled)
  {
    hide Resume, Forwarded, Final;
    ForwardedSplit(before + [Retry], after);
    ForwardedSplit(before, [Retry]);
    ResumeSplit(NOTHING_ASIDE, before + [Retry], after);
    ResumeSplit(NOTHING_ASIDE, before, [Retry]);
    RetryAlone(Resume(NOTHING_ASIDE, before));
  }

  lemma RetryAlone(a: Aside)
    ensures Resume(a, [Retry]) == NOTHING_ASIDE && Forwarded([Retry]) == [Retry]
  {
    ResumeOne(a, Retry);
    assert [Retry][..0] == [];
  }

  // ---------------------------------------------------------------- the decoder and the publisher as they run

  class SseDecoder {
    const responses: bool
    var stopEmitted: bool
    var eventType: EventType
    var block: Block
    var toolName: string
    var toolID: string
    var partialJSON: string
    var stopReason: string
    var tokens: Tokens
    var chat: Chat
    var calls: Responses
    var ch: seq<Event>

    function State(): Decoder
      reads this
    {
      Decoder(stopEmitted, eventType, block, toolName, toolID, partialJSON, stopReason, tokens, chat, calls)
    }

    /** The state and the channel moved on by what one step gives. */
    twostate predicate Moved(o: Output)
      reads this
    {
      State() == o.decoder && ch == old(ch) + o.events
    }

    constructor (responses: bool)
      ensures State() == INITIAL && ch == [] && this.responses == responses
    {
      this.responses := responses;
      stopEmitted, eventType, block, toolName, toolID := false, NoEvent, NoBlock, "", "";
      partialJSON, stopReason, tokens := "", "", NO_TOKENS;
      chat, calls, ch := Chat(false, map[]), Responses(false, map[], map[]), [];
    }

    method EmitOpenAIPendingCalls()
      modifies `ch, `chat
      ensures ch == old(ch) + Emitting(Flush(old(chat.calls)))
      ensures chat == old(chat).(calls := map[])
    {
      var slots := Walk(chat.calls);
      ch := ch + Emitting(slots);
      chat := chat.(calls := map[]);
    }

    method EmitResponsesPendingCalls()
      modifies `ch, `calls
      ensures ch == old(ch) + Emitting(Flush(Named(old(calls.calls))))
      ensures calls == old(calls).(calls := map[])
    {
      var pending := calls.calls;
      var slots := WalkNamed(pending);
      ch := ch + Emitting(slots);
      calls := calls.(calls := map[]);
    }

    method AddDeltas(deltas: seq<Delta>)
      modifies `chat
      ensures chat == old(chat).(calls := AddAll(old(chat.calls), deltas))
    {
      for i := 0 to |deltas|
        invariant chat == old(chat).(calls := AddAll(old(chat.calls), deltas[..i]))
      {
        assert deltas[..i + 1][..i] == deltas[..i];
        var d := deltas[i];
        var call := if d.index in chat.calls then chat.calls[d.index] else NO_CALL;
        if d.id != "" {
          call := call.(id := d.id);
        }
        if d.name != "" {
          call := call.(name := d.name);
        }
        assert d.arguments == "" ==> call.arguments + d.arguments == call.arguments;
        if d.arguments != "" {
          call := call.(arguments := call.arguments + d.arguments);
        }
        chat := chat.(calls := chat.calls[d.index := call]);
      }
      assert deltas[..|deltas|] == deltas;
    }

    method HandleOpenAIChunk(p: Payload)
      modifies this
      ensures var o := ChatStep(old(State()), p);
        Moved(o.(decoder := o.decoder.(stopEmitted := old(stopEmitted))))
    {
      hide Flush, Emitting, ChoiceStep, ChunkUsage, StopName;
      if p.done {
        EmitOpenAIPendingCalls();
        ch := ch + [Usage(tokens, true)];
        ch := ch + [Stop(StopName(stopReason))];
        return;
      }
      if p.chunk.None? {
        return;
      }
      tokens := ChunkUsage(tokens, p.chunk.value);
      if |p.chunk.value.choices| == 0 {
        return;
      }
      HandleChoice(p.chunk.value.choices[0]);
    }

    method SendText(content: string)
      modifies `chat, `ch
      ensures var text := ChatText(old(chat), content);
        && chat == old(chat).(started := old(chat.started) || text != "")
        && ch == old(ch) + TextEvents(text)
    {
      var text := content;
      if !chat.started {
        text := TrimLeft(text, {'\n'});
      }
      if text != "" {
        chat := chat.(started := true);
        ch := ch + [Text(text)];
      }
    }

    method HandleChoice(choice: Choice)
      modifies `stopReason, `chat, `ch
      ensures Moved(ChoiceStep(old(State()), choice))
    {
      hide Flush, AddAll, TrimLeft, Emitting;
      if choice.finish.Some? {
        stopReason := choice.finish.value;
      }
      SendText(choice.content);
      AddDeltas(choice.deltas);
      if choice.finish == Some("tool_calls") {
        EmitOpenAIPendingCalls();
      }
    }

    method CompleteResponse(r: ResponseView)
      modifies `tokens, `calls, `ch
      ensures var o := CompletedStep(old(State()), r);
        o.decoder.stopEmitted && Moved(o.(decoder := o.decoder.(stopEmitted := old(stopEmitted))))
    {
      hide Flush, Named, Emitting, Recorded;
      tokens := Recorded(tokens, r);
      var hasTools := calls.calls != map[];
      EmitResponsesPendingCalls();
      ch := ch + [Usage(tokens.(cacheWrite := 0), true)];
      ch := ch + [Stop(if hasTools then "tool_use" else "end_turn")];
    }

    /** True when the event ends the response. */
    method HandleResponsesEvent(p: Payload) returns (terminal: bool)
      requires IsResponseEvent(eventType)
      modifies this
      ensures var o := ResponseStep(old(State()), p);
        && Moved(o.(decoder := o.decoder.(stopEmitted := old(stopEmitted))))
        && o.decoder.stopEmitted == (old(stopEmitted) || terminal)
    {
      hide CompletedStep, FailedStep, TrimLeft, NoteItem, NoteArguments;
      if p.response.None? {
        return false;
      }
      var r := p.response.value;
      terminal := false;
      if eventType == Response(ReasoningDelta) {
        if r.delta != "" {
          ch := ch + [Thinking(r.delta)];
        }
      } else if eventType == Response(OutputTextDelta) {
        SendOutputText(r.delta);
      } else if eventType == Response(ItemChanged) {
        if r.item.isCall {
          calls := NoteItem(calls, r);
        }
      } else if eventType == Response(ArgumentsDelta) {
        calls := NoteArguments(calls, r);
      } else if eventType == Response(Completed) {
        CompleteResponse(r);
        terminal := true;
      } else if eventType != Response(OtherResponse) {
        FailResponse(r);
        terminal := true;
      }
    }

    method SendOutputText(delta: string)
      modifies `calls, `ch
      ensures var text := if old(calls.started) then delta else TrimLeft(delta, {'\n', '\r'});
        calls == old(calls).(started := old(calls.started) || text != "") && ch == old(ch) + TextEvents(text)
    {
      var text := delta;
      if !calls.started {
        text := TrimLeft(text, {'\n', '\r'});
      }
      if text != "" {
        calls := calls.(started := true);
        ch := ch + [Text(text)];
      }
    }

    method FailResponse(r: ResponseView)
      modifies `tokens, `ch
      ensures var o := FailedStep(old(State()), r);
        o.decoder.stopEmitted && Moved(o.(decoder := o.decoder.(stopEmitted := old(stopEmitted))))
    {
      tokens := Recorded(tokens, r);
      ch := ch + [Error(FirstMessage(r.messages, DefaultMessage(eventType)))];
      ch := ch + [Usage(tokens.(cacheWrite := 0), false)];
      ch := ch + [Stop("error")];
    }

    method HandleBlockDelta(p: Payload)
      modifies `partialJSON, `ch
      ensures Moved(BlockDeltaStep(old(State()), p))
    {
      match block {
        case TextBlock =>
          if p.text != "" {
            ch := ch + [Text(p.text)];
          }
        case ThinkingBlock =>
          if p.thinking != "" {
            ch := ch + [Thinking(p.thinking)];
          }
        case ToolBlock =>
          partialJSON := partialJSON + p.partialJSON;
        case NoBlock =>
      }
    }

    method HandleBlockStop()
      modifies `block, `partialJSON, `ch
      ensures Moved(BlockStopStep(old(State())))
    {
      if block == ToolBlock {
        var input := partialJSON;
        if input == "" {
          input := "{}";
        }
        ch := ch + [ToolCall(toolName, toolID, input)];
        partialJSON := "";
      }
      block := NoBlock;
    }

    method Reset()
      modifies this
      ensures State() == INITIAL && ch == old(ch) + [Retry]
    {
      stopEmitted, eventType, block, toolName, toolID := false, NoEvent, NoBlock, "", "";
      partialJSON, stopReason, tokens := "", "", NO_TOKENS;
      chat, calls := Chat(false, map[]), Responses(false, map[], map[]);
      ch := ch + [Retry];
    }

    method HandleClaude(p: Payload)
      modifies this
      ensures Moved(ClaudeStep(old(State()), p))
    {
      match eventType {
        case BlockStart =>
          block, toolName, toolID := p.block.kind, p.block.name, p.block.id;
        case BlockDelta =>
          HandleBlockDelta(p);
        case BlockStop =>
          HandleBlockStop();
        case MessageDelta =>
          if p.stopReason != "" {
            stopReason := p.stopReason;
          }
          tokens := DeltaUsage(tokens, p.deltaUsage);
        case MessageStart =>
          tokens := StartUsage(tokens, p.startUsage);
        case MessageStop =>
          stopEmitted := true;
          ch := ch + [Usage(tokens, true)];
          ch := ch + [Stop(stopReason)];
        case ErrorEvent =>
          ch := ch + [Error(p.message)];
        case RetryEvent =>
          Reset();
        case _ =>
      }
    }

    method HandleLine(line: Line)
      modifies this
      ensures Moved(StepOf(responses)(old(State()), line))
    {
      match line {
        case Skipped =>
        case EventName(name) =>
          eventType := name;
        case Data(p) =>
          if responses && IsResponseEvent(eventType) {
            var terminal := HandleResponsesEvent(p);
            if terminal {
              stopEmitted := true;
            }
          } else if p.mentionsChoices || p.done {
            HandleOpenAIChunk(p);
            if p.done {
              stopEmitted := true;
            }
          } else {
            HandleClaude(p);
          }
      }
    }

    /** The decoding goroutine, from the response headers to the end of the body. */
    method DecodeSSEStream(lines: seq<Line>, ending: Ending)
      requires State() == INITIAL && ch == []
      modifies this
      ensures ch == Decode(responses, lines, ending)
    {
      hide Step, StepOf;
      var i := 0;
      while i < |lines|
        invariant i <= |lines|
        invariant var o := Fold(StepOf(responses), INITIAL, lines[..i]); State() == o.decoder && ch == o.events
      {
        assert lines[..i + 1] == lines[..i] + [lines[i]];
        FoldLast(StepOf(responses), INITIAL, lines[..i], lines[i]);
        HandleLine(lines[i]);
        i := i + 1;
      }
      assert lines[..i] == lines;
      if ending.Some? {
        ch := ch + [Error(ending.value)];
      }
      if !stopEmitted {
        ch := ch + [Error(Interrupted(responses))];
        ch := ch + [Stop("error")];
      }
    }
  }

  lemma FoldNext(step: (Decoder, Line) -> Output, d: Decoder, line: Line, lines: seq<Line>)
    ensures var first := step(d, line);
      var rest := Fold(step, first.decoder, lines);
      Fold(step, d, [line] + lines) == Output(rest.decoder, first.events + rest.events)
  {
    assert ([line] + lines)[1..] == lines;
  }

  lemma FoldLast(step: (Decoder, Line) -> Output, d: Decoder, lines: seq<Line>, last: Line)
    ensures var front := Fold(step, d, lines);
      var o := step(front.decoder, last);
      Fold(step, d, lines + [last]) == Output(o.decoder, front.events + o.events)
  {
    FoldSplit(step, d, lines, [last]);
    FoldNext(step, Fold(step, d, lines).decoder, last, []);
    assert [last] + [] == [last];
  }

  /** The publishing goroutine: what the consumer receives for the decoder's events. */
  method ParseSSEStream(events: seq<Event>, cancelled: bool) returns (out: seq<Event>)
    ensures out == Published(events, cancelled)
  {
    var pendingUsage: Option<Counted> := None;
    var pendingStop: Option<string> := None;
    var failed := false;
    out := [];
    for i := 0 to |events|
      invariant Aside(pendingUsage, pendingStop, failed) == Resume(NOTHING_ASIDE, events[..i])
      invariant out == Forwarded(events[..i])
    {
      assert events[..i + 1][..i] == events[..i];
      match events[i] {
        case Usage(counted, stopped) => pendingUsage := Some(Counted(counted, stopped));
        case Stop(reason) => pendingStop := Some(reason);
        case Error(_) =>
          failed := true;
          out := out + [events[i]];
        case Retry =>
          pendingUsage, pendingStop, failed := None, None, false;
          out := out + [events[i]];
        case _ => out := out + [events[i]];
      }
    }
    assert events[..|events|] == events;
    if cancelled {
      failed := true;
    }
    if pendingUsage.Some? {
      out := out + [Usage(pendingUsage.value.tokens, pendingUsage.value.stopped && !failed)];
    }
    if failed {
      out := out + [Stop("error")];
    } else if pendingStop.Some? {
      out := out + [Stop(pendingStop.value)];
    }
  }

  /** The two goroutines together: an unbuffered channel hands the events over in order. */
  method Stream(responses: bool, lines: seq<Line>, ending: Ending, cancelled: bool) returns (out: seq<Event>)
    ensures out == Published(Decode(responses, lines, ending), cancelled)
    ensures out != [] && out[|out| - 1].Stop? && forall i :: 0 <= i < |out| - 1 ==> !out[i].Stop?
  {
    hide Published, Decode, ErrorSinceRetry;
    var decoder := new SseDecoder(responses);
    decoder.DecodeSSEStream(lines, ending);
    out := ParseSSEStream(decoder.ch, cancelled);
    PublishedShape(responses, lines, ending, cancelled);
  }

  /** As Walk, for the calls of a Responses stream. */
  method WalkNamed(pending: Pending) returns (slots: seq<Slot>)
    ensures slots == Flush(Named(pending))
  {
    var keys := SortedKeys(pending);
    slots := [];
    ghost var kept: seq<Index> := [];
    for i := 0 to |keys|
      invariant KeptOf(kept, keys[..i], pending)
      invariant slots == Along(kept, Named(pending))
    {
      var x := keys[i];
      assert x in keys;
      KeptNext(kept, keys, i, pending);
      var call := pending[x];
      if call.name != "" && call.id != "" {
        slots := slots + [Slot(x, call.(arguments := OrEmptyObject(call.arguments)))];
        kept := kept + [x];
      }
    }
    assert keys[..|keys|] == keys;
    KeptAll(kept, keys, pending);
  }

  lemma KeptAll(kept: seq<Index>, keys: seq<Index>, pending: Pending)
    requires KeptOf(kept, keys, pending) && forall x :: x in keys <==> x in pending
    ensures kept == Sorted(Named(pending).Keys)
  {
    AscendingIsUnique(kept, Sorted(Named(pending).Keys));
  }

  ghost predicate KeptOf(kept: seq<Index>, seen: seq<Index>, pending: Pending) {
    Ascending(kept) && forall x :: x in kept <==> x in seen && x in Named(pending)
  }

  lemma KeptNext(kept: seq<Index>, keys: seq<Index>, i: nat, pending: Pending)
    requires i < |keys| && Ascending(keys) && keys[i] in pending && KeptOf(kept, keys[..i], pending)
    ensures keys[i] in Named(pending) <==> pending[keys[i]].name != "" && pending[keys[i]].id != ""
    ensures KeptOf(if keys[i] in Named(pending) then kept + [keys[i]] else kept, keys[..i + 1], pending)
    ensures keys[i] in Named(pending) ==>
              && (forall y :: y in kept + [keys[i]] ==> y in Named(pending))
              && Along(kept + [keys[i]], Named(pending)) ==
                 Along(kept, Named(pending)) + [Slot(keys[i], Named(pending)[keys[i]])]
  {
    var x := keys[i];
    assert keys[..i + 1] == keys[..i] + [x];
    forall k | 0 <= k < |kept|
      ensures kept[k] < x
    {
      assert kept[k] in keys[..i];
      var j :| 0 <= j < i && keys[..i][j] == kept[k];
      assert keys[j] < keys[i];
    }
    if x in Named(pending) {
      var next := kept + [x];
      AlongNext(next, |kept|, Named(pending));
      assert next[..|kept| + 1] == next && next[..|kept|] == kept;
    }
  }
}
