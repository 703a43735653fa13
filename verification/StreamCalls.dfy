/** The tool calls of the Go client's streams, in all three forms. */
module StreamCalls {
  import opened Options
  import opened Sequences
  import opened ToolReassembly
  import opened SseStream

  // ---------------------------------------------------------------- what a stream says

  // The decoder decides line by line which form a data line has, so a stream may mix
  // them. What is sent is described here by what the lines say, without the decoder.

  datatype Form = ResponsesForm | ChatForm | ClaudeForm

  /** A data line with its form and the event name it stands under. */
  datatype Said = Said(form: Form, name: EventType, data: Payload)

  function FormOf(responses: bool, name: EventType, p: Payload): Form {
    if responses && IsResponseEvent(name) then ResponsesForm
    else if p.mentionsChoices || p.done then ChatForm
    else ClaudeForm
  }

  /** The event name in force behind some lines; a retry leaves none. */
  function NameOf(responses: bool, lines: seq<Line>): EventType {
    if lines == [] then NoEvent
    else
      var name := NameOf(responses, lines[..|lines| - 1]);
      match lines[|lines| - 1]
      case Skipped => name
      case EventName(n) => n
      case Data(p) => if IsRetry(Said(FormOf(responses, name, p), name, p)) then NoEvent else name
  }

  function Heard(responses: bool, lines: seq<Line>): seq<Said> {
    if lines == [] then []
    else
      var front, last := lines[..|lines| - 1], lines[|lines| - 1];
      Heard(responses, front) +
      if last.Data? then
        [Said(FormOf(responses, NameOf(responses, front), last.data), NameOf(responses, front), last.data)]
      else []
  }

  predicate IsRetry(s: Said) {
    s.form == ClaudeForm && s.name == RetryEvent
  }

  /** What was said since the last retry. */
  function SinceRetry(said: seq<Said>): seq<Said> {
    if said == [] then []
    else
      var last := said[|said| - 1];
      if IsRetry(last) then [] else SinceRetry(said[..|said| - 1]) + [last]
  }

  // -------- chat

  function ChatMark(s: Said): Mark {
    if s.form != ChatForm then Mark([], false)
    else if s.data.done then Mark([], true)
    else if s.data.chunk.None? || s.data.chunk.value.choices == [] then Mark([], false)
    else Mark(s.data.chunk.value.choices[0].deltas, Finishes(s.data.chunk.value.choices[0]))
  }

  function ChatMarks(said: seq<Said>): seq<Mark> {
    seq(|said|, i requires 0 <= i < |said| => ChatMark(said[i]))
  }

  /** The pieces since the last flush. */
  function OpenSegment(said: seq<Said>): seq<Delta> {
    var segments := Segments(ChatMarks(said));
    segments[|segments| - 1]
  }

  // -------- Claude

  const NO_BLOCK := BlockView(NoBlock, "", "")

  predicate Starts(s: Said) {
    s.form == ClaudeForm && s.name == BlockStart
  }

  predicate Stops(s: Said) {
    s.form == ClaudeForm && s.name == BlockStop
  }

  /** The block that was started last and not stopped since. */
  function OpenBlock(said: seq<Said>): BlockView {
    if said == [] then NO_BLOCK
    else
      var last := said[|said| - 1];
      if Starts(last) then last.data.block
      else if Stops(last) then NO_BLOCK
      else OpenBlock(said[..|said| - 1])
  }

  predicate InTool(said: seq<Said>) {
    OpenBlock(said).kind == ToolBlock
  }

  function PieceOf(s: Said): string {
    if s.form == ClaudeForm && s.name == BlockDelta then s.data.partialJSON else ""
  }

  /** The input pieces since the last start or stop of a block. */
  function OwnInput(said: seq<Said>): string {
    if said == [] || Starts(said[|said| - 1]) || Stops(said[|said| - 1]) then ""
    else OwnInput(said[..|said| - 1]) + PieceOf(said[|said| - 1])
  }

  /** The input of tool blocks that were given up for another block since the last call was sent. */
  function LeftInput(said: seq<Said>): string {
    if said == [] then ""
    else
      var front, last := said[..|said| - 1], said[|said| - 1];
      if Starts(last) && InTool(front) then LeftInput(front) + OwnInput(front)
      else if Stops(last) && InTool(front) then ""
      else LeftInput(front)
  }

  // -------- responses

  predicate Responds(s: Said, kind: ResponseKind) {
    s.form == ResponsesForm && s.name == Response(kind) && s.data.response.Some?
  }

  predicate Announces(s: Said) {
    Responds(s, ItemChanged) && s.data.response.value.item.isCall
  }

  function ItemId(r: ResponseView): string {
    if r.itemId != "" then r.itemId else r.item.id
  }

  /** The index under which an item was announced last. */
  function ItemIndex(said: seq<Said>, id: string): Option<Index> {
    if said == [] then None
    else
      var last := said[|said| - 1];
      if Announces(last) && ItemId(last.data.response.value) == id then Some(last.data.response.value.index)
      else ItemIndex(said[..|said| - 1], id)
  }

  /** What one event says of the call at an index: arguments stated as a whole, or one more piece of them. */
  datatype Note = Note(index: Index, id: string, name: string, whole: string, piece: string)

  /** A piece belongs to the call of its item, and to the index it names when the item is unknown. */
  function PieceIndex(said: seq<Said>, r: ResponseView): Index {
    if r.itemId != "" && ItemIndex(said, r.itemId).Some? then ItemIndex(said, r.itemId).value else r.index
  }

  /** What was said of the calls since the last completion. */
  function Notes(said: seq<Said>): seq<Note> {
    if said == [] then []
    else
      var front, last := said[..|said| - 1], said[|said| - 1];
      if Responds(last, Completed) then []
      else if Announces(last) then
        var r := last.data.response.value;
        Notes(front) + [Note(r.index, r.item.callId, r.item.name, r.item.arguments, "")]
      else if Responds(last, ArgumentsDelta) then
        var r := last.data.response.value;
        Notes(front) + [Note(PieceIndex(front, r), "", "", "", r.delta)]
      else Notes(front)
  }

  function NotedId(notes: seq<Note>, x: Index): string {
    if notes == [] then ""
    else
      var last := notes[|notes| - 1];
      if last.index == x && last.id != "" then last.id else NotedId(notes[..|notes| - 1], x)
  }

  function NotedName(notes: seq<Note>, x: Index): string {
    if notes == [] then ""
    else
      var last := notes[|notes| - 1];
      if last.index == x && last.name != "" then last.name else NotedName(notes[..|notes| - 1], x)
  }

  /** The arguments last stated as a whole, and the pieces after them. */
  function NotedArguments(notes: seq<Note>, x: Index): string {
    if notes == [] then ""
    else
      var front, last := notes[..|notes| - 1], notes[|notes| - 1];
      if last.index != x then NotedArguments(front, x)
      else if last.whole != "" then last.whole + last.piece
      else NotedArguments(front, x) + last.piece
  }

  function NotedCall(notes: seq<Note>, x: Index): Call {
    Call(NotedId(notes, x), NotedName(notes, x), NotedArguments(notes, x))
  }

  function NotedIndexes(notes: seq<Note>): set<Index> {
    set n | n in notes :: n.index
  }

  function NotedCalls(notes: seq<Note>): Pending {
    map x | x in NotedIndexes(notes) :: NotedCall(notes, x)
  }

  // -------- all of them

  /** The calls one more line sends after what was said before it. */
  ghost function Sends(before: seq<Said>, s: Said): seq<Event> {
    match s.form
    case ResponsesForm =>
      if Responds(s, Completed) then Emitting(Flush(Named(NotedCalls(Notes(before))))) else []
    case ChatForm =>
      if ChatMark(s).flushes then Emitting(Flush(AddAll(map[], OpenSegment(before) + ChatMark(s).deltas))) else []
    case ClaudeForm =>
      if Stops(s) && InTool(before) then
        [ToolCall(OpenBlock(before).name, OpenBlock(before).id, OrEmptyObject(LeftInput(before) + OwnInput(before)))]
      else []
  }

  ghost function Sent(said: seq<Said>): seq<Event> {
    if said == [] then [] else Sent(said[..|said| - 1]) + Sends(said[..|said| - 1], said[|said| - 1])
  }

  // ---------------------------------------------------------------- calls among events

  /** The tool calls after the last retry: what a consumer holds that forgets at a retry. */
  function CallsSince(events: seq<Event>): seq<Event> {
    if events == [] then []
    else
      var front, last := events[..|events| - 1], events[|events| - 1];
      match last
      case Retry => []
      case ToolCall(_, _, _) => CallsSince(front) + [last]
      case _ => CallsSince(front)
  }

  predicate NoRetry(events: seq<Event>) {
    forall i :: 0 <= i < |events| ==> !events[i].Retry?
  }

  lemma {:induction false} CallsSplit(a: seq<Event>, b: seq<Event>)
    requires NoRetry(b)
    ensures CallsSince(a + b) == CallsSince(a) + CallsSince(b)
  {
    if b == [] {
      assert a + b == a;
    } else {
      assert (a + b)[..|a + b| - 1] == a + b[..|b| - 1];
      CallsSplit(a, b[..|b| - 1]);
    }
  }

  lemma {:induction false} OnlyCalls(events: seq<Event>)
    requires forall i :: 0 <= i < |events| ==> events[i].ToolCall?
    ensures CallsSince(events) == events
  {
    if events != [] { OnlyCalls(events[..|events| - 1]); }
  }

  lemma {:induction false} NoCalls(events: seq<Event>)
    requires forall i :: 0 <= i < |events| ==> !events[i].ToolCall?
    ensures CallsSince(events) == []
  {
    if events != [] { NoCalls(events[..|events| - 1]); }
  }

  /** A step that forwards texts and then calls. */
  lemma CallsAmong(before: seq<Event>, calls: seq<Event>, after: seq<Event>)
    requires NoRetry(before) && forall i :: 0 <= i < |before| ==> !before[i].ToolCall?
    requires forall i :: 0 <= i < |calls| ==> calls[i].ToolCall?
    requires NoRetry(after) && forall i :: 0 <= i < |after| ==> !after[i].ToolCall?
    ensures CallsSince(before + calls + after) == calls && NoRetry(before + calls + after)
  {
    hide CallsSince;
    NoCalls(before);
    OnlyCalls(calls);
    NoCalls(after);
    CallsSplit(before, calls);
    CallsSplit(before + calls, after);
  }

  lemma {:induction false} ForwardedKeepsCalls(events: seq<Event>)
    ensures CallsSince(Forwarded(events)) == CallsSince(events)
  {
    if events != [] {
      var front, last := events[..|events| - 1], events[|events| - 1];
      ForwardedKeepsCalls(front);
      if last.Usage? || last.Stop? {
        assert Forwarded(front) + [] == Forwarded(front);
      } else {
        assert (Forwarded(front) + [last])[..|Forwarded(front)|] == Forwarded(front);
      }
    }
  }

  lemma EndsAreQuiet(responses: bool, d: Decoder, ending: Ending, a: Aside, cancelled: bool)
    ensures NoRetry(Closing(responses, d, ending)) && CallsSince(Closing(responses, d, ending)) == []
    ensures NoRetry(Final(a, cancelled)) && CallsSince(Final(a, cancelled)) == []
  {
    hide CallsSince;
    NoCalls(Closing(responses, d, ending));
    NoCalls(Final(a, cancelled));
  }

  /** The consumer gets the calls of the decoded lines; what is added at the end brings none. */
  lemma PublishedCalls(responses: bool, lines: seq<Line>, ending: Ending, cancelled: bool)
    ensures CallsSince(Published(Decode(responses, lines, ending), cancelled)) ==
            CallsSince(Run(responses, INITIAL, lines).events)
  {
    hide Run, Resume, Forwarded, CallsSince, NoRetry, Closing, Final;
    var run := Run(responses, INITIAL, lines);
    var decoded := Decode(responses, lines, ending);
    var aside := Resume(NOTHING_ASIDE, decoded);
    EndsAreQuiet(responses, run.decoder, ending, aside, cancelled);
    ForwardedKeepsCalls(decoded);
    CallsSplit(run.events, Closing(responses, run.decoder, ending));
    CallsSplit(Forwarded(decoded), Final(aside, cancelled));
    Empty(CallsSince(decoded));
  }

  // ---------------------------------------------------------------- what the decoder holds

  ghost predicate HoldsChat(d: Decoder, said: seq<Said>) {
    d.chat.calls == AddAll(map[], OpenSegment(said))
  }

  ghost predicate HoldsBlock(d: Decoder, said: seq<Said>) {
    && d.block == OpenBlock(said).kind
    && (InTool(said) ==> d.toolName == OpenBlock(said).name && d.toolID == OpenBlock(said).id)
    && d.partialJSON == LeftInput(said) + if InTool(said) then OwnInput(said) else ""
  }

  /** The indexes by item id, as the decoder's map has them. */
  ghost predicate HoldsIndexes(indexes: map<string, Index>, said: seq<Said>) {
    forall id: string :: id != "" ==> ItemIndex(said, id) == if id in indexes then Some(indexes[id]) else None
  }

  ghost predicate HoldsResponses(d: Decoder, said: seq<Said>) {
    d.responses.calls == NotedCalls(Notes(said)) && HoldsIndexes(d.responses.itemIndexes, said)
  }

  lemma IndexesMove(indexes: map<string, Index>, said: seq<Said>, s: Said)
    requires HoldsIndexes(indexes, said)
    ensures !Announces(s) ==> HoldsIndexes(indexes, said + [s])
    ensures Announces(s) ==>
              var r := s.data.response.value;
              HoldsIndexes(if ItemId(r) != "" then indexes[ItemId(r) := r.index] else indexes, said + [s])
  {
    assert (said + [s])[..|said|] == said;
  }

  lemma NotesMove(said: seq<Said>, s: Said)
    ensures Notes(said + [s]) ==
            if Responds(s, Completed) then []
            else if Announces(s) then
              var r := s.data.response.value;
              Notes(said) + [Note(r.index, r.item.callId, r.item.name, r.item.arguments, "")]
            else if Responds(s, ArgumentsDelta) then
              Notes(said) + [Note(PieceIndex(said, s.data.response.value), "", "", "", s.data.response.value.delta)]
            else Notes(said)
  {
    assert (said + [s])[..|said|] == said;
  }

  ghost predicate Holds(d: Decoder, said: seq<Said>) {
    HoldsChat(d, said) && HoldsBlock(d, said) && HoldsResponses(d, said)
  }

  lemma HoldsNothing(d: Decoder)
    requires d == INITIAL
    ensures Holds(d, [])
  {
    assert ChatMarks([]) == [];
    assert NotedCalls(Notes([])) == map[];
  }

  // -------- lines of one form leave what the decoder holds for the others

  lemma ChatStays(d: Decoder, t: Decoder, said: seq<Said>, s: Said)
    requires HoldsChat(d, said) && t.chat.calls == d.chat.calls && s.form != ChatForm
    ensures HoldsChat(t, said + [s])
  {
    hide Segments, AddAll;
    assert ChatMarks(said + [s]) == ChatMarks(said) + [ChatMark(s)];
    SegmentsNext(ChatMarks(said), ChatMark(s));
    Empty(OpenSegment(said));
  }

  lemma BlockStays(d: Decoder, t: Decoder, said: seq<Said>, s: Said)
    requires HoldsBlock(d, said) && s.form != ClaudeForm
    requires t.block == d.block && t.toolName == d.toolName && t.toolID == d.toolID && t.partialJSON == d.partialJSON
    ensures HoldsBlock(t, said + [s])
  {
    assert (said + [s])[..|said|] == said;
    Empty(OwnInput(said));
  }

  lemma ResponsesStay(d: Decoder, t: Decoder, said: seq<Said>, s: Said)
    requires HoldsResponses(d, said) && t.responses == d.responses && s.form != ResponsesForm
    ensures HoldsResponses(t, said + [s])
  {
    assert (said + [s])[..|said|] == said;
  }

  // -------- chat lines

  lemma ChoiceMoves(d: Decoder, c: Choice)
    ensures var o := ChoiceStep(d, c);
      var calls := AddAll(d.chat.calls, c.deltas);
      && NoRetry(o.events) && CallsSince(o.events) == (if Finishes(c) then Emitting(Flush(calls)) else [])
      && o.decoder.chat.calls == (if Finishes(c) then map[] else calls)
      && SameOutsideChat(d, o.decoder)
  {
    hide Flush, AddAll, ChatText, CallsSince;
    var text := TextEvents(ChatText(d.chat, c.content));
    var calls := if Finishes(c) then Emitting(Flush(AddAll(d.chat.calls, c.deltas))) else [];
    CallsAmong(text, calls, []);
    Empty(text + calls);
  }

  predicate SameOutsideChat(d: Decoder, t: Decoder) {
    && t.eventType == d.eventType && t.responses == d.responses
    && t.block == d.block && t.toolName == d.toolName && t.toolID == d.toolID && t.partialJSON == d.partialJSON
  }

  lemma DoneMoves(d: Decoder)
    ensures var o := DoneStep(d);
      && NoRetry(o.events) && CallsSince(o.events) == Emitting(Flush(d.chat.calls))
      && o.decoder.chat.calls == map[] && SameOutsideChat(d, o.decoder)
  {
    hide Flush, CallsSince;
    var end := [Usage(d.tokens, true), Stop(StopName(d.stopReason))];
    CallsAmong([], Emitting(Flush(d.chat.calls)), end);
    Empty(Emitting(Flush(d.chat.calls)));
  }

  lemma ChatMoves(d: Decoder, s: Said)
    requires s.form == ChatForm
    ensures var o, mark := ChatStep(d, s.data), ChatMark(s);
      var calls := AddAll(d.chat.calls, mark.deltas);
      && NoRetry(o.events) && CallsSince(o.events) == (if mark.flushes then Emitting(Flush(calls)) else [])
      && o.decoder.chat.calls == (if mark.flushes then map[] else calls)
      && SameOutsideChat(d, o.decoder)
  {
    hide Flush, Emitting, ChoiceStep, DoneStep;
    var p := s.data;
    assert AddAll(d.chat.calls, []) == d.chat.calls;
    DoneMoves(d);
    if !p.done && p.chunk.Some? && p.chunk.value.choices != [] {
      ChoiceMoves(d.(tokens := ChunkUsage(d.tokens, p.chunk.value)), p.chunk.value.choices[0]);
    }
  }

  lemma HeldAfterChat(said: seq<Said>, s: Said)
    ensures OpenSegment(said + [s]) == if ChatMark(s).flushes then [] else OpenSegment(said) + ChatMark(s).deltas
    ensures AddAll(map[], OpenSegment(said) + ChatMark(s).deltas) ==
            AddAll(AddAll(map[], OpenSegment(said)), ChatMark(s).deltas)
  {
    hide Segments, AddAll;
    assert ChatMarks(said + [s]) == ChatMarks(said) + [ChatMark(s)];
    SegmentsNext(ChatMarks(said), ChatMark(s));
    AddAllSplit(map[], OpenSegment(said), ChatMark(s).deltas);
  }

  lemma AfterChat(d: Decoder, said: seq<Said>, s: Said)
    requires Holds(d, said) && s.form == ChatForm
    ensures var o := ChatStep(d, s.data);
      && Holds(o.decoder, said + [s]) && NoRetry(o.events) && CallsSince(o.events) == Sends(said, s)
      && o.decoder.eventType == d.eventType
  {
    hide ChatStep, Flush, Emitting, OpenSegment, HoldsBlock, HoldsResponses;
    var t := ChatStep(d, s.data).decoder;
    ChatMoves(d, s);
    HeldAfterChat(said, s);
    BlockStays(d, t, said, s);
    ResponsesStay(d, t, said, s);
  }

  // -------- Claude lines

  lemma ClaudeMoves(d: Decoder, s: Said)
    requires s.form == ClaudeForm && d.eventType == s.name && s.name != RetryEvent
    ensures var o := ClaudeStep(d, s.data);
      && NoRetry(o.events)
      && CallsSince(o.events) ==
           (if Stops(s) && d.block == ToolBlock then [ToolCall(d.toolName, d.toolID, OrEmptyObject(d.partialJSON))] else [])
      && o.decoder.eventType == d.eventType && o.decoder.chat == d.chat && o.decoder.responses == d.responses
  {
    hide CallsSince;
    var events := ClaudeStep(d, s.data).events;
    if Stops(s) && d.block == ToolBlock {
      OnlyCalls(events);
    } else {
      NoCalls(events);
    }
  }

  lemma BlockMoves(d: Decoder, said: seq<Said>, s: Said)
    requires HoldsBlock(d, said) && s.form == ClaudeForm && d.eventType == s.name && s.name != RetryEvent
    ensures HoldsBlock(ClaudeStep(d, s.data).decoder, said + [s])
  {
    assert (said + [s])[..|said|] == said;
    Empty(LeftInput(said));
    Empty(OwnInput(said));
    Associate(LeftInput(said), OwnInput(said), PieceOf(s));
  }

  lemma AfterClaude(d: Decoder, said: seq<Said>, s: Said)
    requires Holds(d, said) && s.form == ClaudeForm && d.eventType == s.name && s.name != RetryEvent
    ensures var o := ClaudeStep(d, s.data);
      && Holds(o.decoder, said + [s]) && NoRetry(o.events) && CallsSince(o.events) == Sends(said, s)
      && o.decoder.eventType == d.eventType
  {
    hide ClaudeStep, OpenBlock, LeftInput, OwnInput, HoldsChat, HoldsResponses;
    var t := ClaudeStep(d, s.data).decoder;
    ClaudeMoves(d, s);
    BlockMoves(d, said, s);
    ChatStays(d, t, said, s);
    ResponsesStay(d, t, said, s);
  }

  // -------- responses lines

  lemma NotedNext(notes: seq<Note>, n: Note)
    ensures NotedCalls(notes + [n]) ==
            NotedCalls(notes)[n.index :=
              var call := Known(NotedCalls(notes), n.index);
              Call(if n.id != "" then n.id else call.id, if n.name != "" then n.name else call.name,
                   (if n.whole != "" then n.whole else call.arguments) + n.piece)]
  {
    var all := notes + [n];
    assert all[..|notes|] == notes && all[|notes|] == n;
    assert NotedIndexes(all) == NotedIndexes(notes) + {n.index};
    if n.index !in NotedIndexes(notes) {
      NothingNoted(notes, n.index);
    }
  }

  lemma {:induction false} NothingNoted(notes: seq<Note>, x: Index)
    requires x !in NotedIndexes(notes)
    ensures NotedCall(notes, x) == NO_CALL
  {
    if notes != [] {
      assert notes[|notes| - 1] in notes;
      NothingNoted(notes[..|notes| - 1], x);
    }
  }

  lemma ItemMoves(d: Decoder, said: seq<Said>, s: Said)
    requires HoldsResponses(d, said) && Announces(s)
    ensures HoldsResponses(d.(responses := NoteItem(d.responses, s.data.response.value)), said + [s])
  {
    hide NotedCalls, HoldsIndexes, Notes;
    var r := s.data.response.value;
    NotesMove(said, s);
    IndexesMove(d.responses.itemIndexes, said, s);
    NotedNext(Notes(said), Note(r.index, r.item.callId, r.item.name, r.item.arguments, ""));
    Empty(r.item.arguments);
    Empty(Known(NotedCalls(Notes(said)), r.index).arguments);
  }

  lemma PieceAt(d: Decoder, said: seq<Said>, r: ResponseView)
    requires HoldsIndexes(d.responses.itemIndexes, said)
    ensures NoteArguments(d.responses, r).calls == Add(d.responses.calls, Delta(PieceIndex(said, r), "", "", r.delta))
    ensures NoteArguments(d.responses, r).itemIndexes == d.responses.itemIndexes
  {
    hide ItemIndex;
  }

  lemma PieceMoves(d: Decoder, said: seq<Said>, s: Said)
    requires HoldsResponses(d, said) && Responds(s, ArgumentsDelta)
    ensures HoldsResponses(d.(responses := NoteArguments(d.responses, s.data.response.value)), said + [s])
  {
    hide NotedCalls, HoldsIndexes, Notes, NoteArguments, PieceIndex;
    var r := s.data.response.value;
    NotesMove(said, s);
    IndexesMove(d.responses.itemIndexes, said, s);
    PieceAt(d, said, r);
    NotedNext(Notes(said), Note(PieceIndex(said, r), "", "", "", r.delta));
  }

  lemma OtherResponseMoves(d: Decoder, t: Decoder, said: seq<Said>, s: Said)
    requires HoldsResponses(d, said) && s.form == ResponsesForm
    requires !Announces(s) && !Responds(s, ArgumentsDelta) && !Responds(s, Completed)
    requires t.responses.(started := d.responses.started) == d.responses
    ensures HoldsResponses(t, said + [s])
  {
    hide NotedCalls, HoldsIndexes, Notes;
    NotesMove(said, s);
    IndexesMove(d.responses.itemIndexes, said, s);
  }

  lemma CompletionMoves(d: Decoder, said: seq<Said>, s: Said)
    requires HoldsResponses(d, said) && Responds(s, Completed)
    ensures var o := CompletedStep(d, s.data.response.value);
      && HoldsResponses(o.decoder, said + [s]) && NoRetry(o.events)
      && CallsSince(o.events) == Emitting(Flush(Named(NotedCalls(Notes(said)))))
  {
    hide Flush, Named, Recorded, CallsSince, HoldsIndexes, Notes;
    var calls := Emitting(Flush(Named(d.responses.calls)));
    var o := CompletedStep(d, s.data.response.value);
    assert o.events == [] + calls + o.events[|calls|..];
    CallsAmong([], calls, o.events[|calls|..]);
    NotesMove(said, s);
    IndexesMove(d.responses.itemIndexes, said, s);
    assert NotedCalls([]) == map[];
  }

  predicate SameOutsideResponses(d: Decoder, t: Decoder) {
    && t.eventType == d.eventType && t.chat == d.chat
    && t.block == d.block && t.toolName == d.toolName && t.toolID == d.toolID && t.partialJSON == d.partialJSON
  }

  /** All responses events but completion send no call. */
  lemma QuietResponse(d: Decoder, s: Said)
    requires s.form == ResponsesForm && d.eventType == s.name && IsResponseEvent(s.name)
    ensures var o := ResponseStep(d, s.data);
      && SameOutsideResponses(d, o.decoder)
      && (!Responds(s, Completed) ==> NoRetry(o.events) && CallsSince(o.events) == [])
      && (!Announces(s) && !Responds(s, ArgumentsDelta) && !Responds(s, Completed) ==>
            o.decoder.responses.(started := d.responses.started) == d.responses)
  {
    hide TrimLeft, CallsSince, FirstMessage, Recorded;
    if !Responds(s, Completed) {
      NoCalls(ResponseStep(d, s.data).events);
    }
  }

  lemma ResponseMoves(d: Decoder, said: seq<Said>, s: Said)
    requires HoldsResponses(d, said) && s.form == ResponsesForm && d.eventType == s.name && IsResponseEvent(s.name)
    ensures var o := ResponseStep(d, s.data);
      && HoldsResponses(o.decoder, said + [s]) && NoRetry(o.events) && CallsSince(o.events) == Sends(said, s)
  {
    hide HoldsResponses, CompletedStep, FailedStep, NoteItem, NoteArguments, TrimLeft, Flush;
    QuietResponse(d, s);
    if Announces(s) {
      ItemMoves(d, said, s);
    } else if Responds(s, ArgumentsDelta) {
      PieceMoves(d, said, s);
    } else if Responds(s, Completed) {
      CompletionMoves(d, said, s);
    } else {
      OtherResponseMoves(d, ResponseStep(d, s.data).decoder, said, s);
    }
  }

  lemma AfterResponse(d: Decoder, said: seq<Said>, s: Said)
    requires Holds(d, said) && s.form == ResponsesForm && d.eventType == s.name && IsResponseEvent(s.name)
    ensures var o := ResponseStep(d, s.data);
      && Holds(o.decoder, said + [s]) && NoRetry(o.events) && CallsSince(o.events) == Sends(said, s)
      && o.decoder.eventType == d.eventType
  {
    hide ResponseStep, HoldsChat, HoldsBlock, Sends;
    var t := ResponseStep(d, s.data).decoder;
    QuietResponse(d, s);
    ResponseMoves(d, said, s);
    ChatStays(d, t, said, s);
    BlockStays(d, t, said, s);
  }

  // -------- every line

  /** A run over lines, against what they say. */
  ghost predicate Follows(o: Output, name: EventType, heard: seq<Said>) {
    && o.decoder.eventType == name
    && Holds(o.decoder, SinceRetry(heard))
    && CallsSince(o.events) == Sent(SinceRetry(heard))
  }

  lemma FollowsData(responses: bool, before: Output, name: EventType, heard: seq<Said>, p: Payload)
    requires Follows(before, name, heard)
    ensures var s := Said(FormOf(responses, name, p), name, p);
      var o := Step(responses, before.decoder, Data(p));
      Follows(Output(o.decoder, before.events + o.events), if IsRetry(s) then NoEvent else name, heard + [s])
  {
    hide ResponseStep, ChatStep, Holds, Sends, CallsSince;
    var s := Said(FormOf(responses, name, p), name, p);
    var d, said := before.decoder, SinceRetry(heard);
    var o := Step(responses, d, Data(p));
    assert (heard + [s])[..|heard|] == heard && (said + [s])[..|said|] == said;
    if IsRetry(s) {
      HoldsNothing(INITIAL);
      RetryIsLast(before.events);
    } else {
      match s.form {
        case ResponsesForm => AfterResponse(d, said, s);
        case ChatForm => AfterChat(d, said, s);
        case ClaudeForm => AfterClaude(d, said, s);
      }
      CallsSplit(before.events, o.events);
    }
  }

  lemma RetryIsLast(events: seq<Event>)
    ensures CallsSince(events + [Retry]) == []
  {
  }

  lemma {:induction false} RunFollows(responses: bool, lines: seq<Line>)
    ensures Follows(Run(responses, INITIAL, lines), NameOf(responses, lines), Heard(responses, lines))
  {
    if lines == [] {
      HoldsNothing(INITIAL);
    } else {
      hide Follows, Step, Fold, IsRetry, FormOf;
      var front, last := lines[..|lines| - 1], lines[|lines| - 1];
      var before := Run(responses, INITIAL, front);
      RunFollows(responses, front);
      assert lines == front + [last];
      FoldLast(StepOf(responses), INITIAL, front, last);
      if last.Data? {
        FollowsData(responses, before, NameOf(responses, front), Heard(responses, front), last.data);
      } else {
        FollowsQuietly(responses, before, last, NameOf(responses, front), Heard(responses, front));
      }
    }
  }

  lemma FollowsQuietly(responses: bool, before: Output, line: Line, name: EventType, heard: seq<Said>)
    requires Follows(before, name, heard) && !line.Data?
    ensures var o := Step(responses, before.decoder, line);
      Follows(Output(o.decoder, before.events + o.events), if line.EventName? then line.name else name, heard + [])
  {
    hide Sent, CallsSince;
    Empty(before.events);
    Empty(heard);
  }

  // ---------------------------------------------------------------- main results

  /**
   The tool calls of every stream: for each provider, line sequence, ending and cancellation, in
   any mixture of the forms and with any retries, the consumer holds exactly the calls that the
   lines since the last retry send.
   */
  lemma EveryStreamCalls(responses: bool, lines: seq<Line>, ending: Ending, cancelled: bool)
    ensures CallsSince(Published(Decode(responses, lines, ending), cancelled)) ==
            Sent(SinceRetry(Heard(responses, lines)))
  {
    hide Sent, CallsSince, Published, Decode, Run;
    RunFollows(responses, lines);
    PublishedCalls(responses, lines, ending, cancelled);
  }

  // -------- chat streams

  lemma EmittingSplit(a: seq<Slot>, b: seq<Slot>)
    ensures Emitting(a + b) == Emitting(a) + Emitting(b)
  {
  }

  /** Nothing but a flush can send a call: no block is started and no response completed. */
  predicate OnlyFlushes(said: seq<Said>) {
    forall i :: 0 <= i < |said| ==> !Starts(said[i]) && !Responds(said[i], Completed)
  }

  /** The segments between two flushes, each reassembled; the last one is still open. */
  ghost function Flushed(said: seq<Said>): seq<Slot> {
    var segments := Segments(ChatMarks(said));
    FlushAnew(segments[..|segments| - 1])
  }

  lemma FlushedNext(said: seq<Said>, s: Said)
    ensures Flushed(said + [s]) ==
            Flushed(said) +
            if ChatMark(s).flushes then Flush(AddAll(map[], OpenSegment(said) + ChatMark(s).deltas)) else []
  {
    hide Segments, Flush, FlushAnew, AddAll;
    var segments, mark := Segments(ChatMarks(said)), ChatMark(s);
    var n := |segments| - 1;
    var grown := Extended(segments, mark.deltas);
    assert ChatMarks(said + [s]) == ChatMarks(said) + [mark];
    SegmentsNext(ChatMarks(said), mark);
    FlushAnewNext(segments[..n], segments[n] + mark.deltas);
    assert (grown + [[]])[..|grown|] == grown == segments[..n] + [segments[n] + mark.deltas];
    assert grown[..n] == segments[..n];
    Empty(Flushed(said));
  }

  lemma SendsByFlush(before: seq<Said>, s: Said)
    requires !InTool(before) && !Starts(s) && !Responds(s, Completed)
    ensures Sends(before, s) ==
            Emitting(if ChatMark(s).flushes then Flush(AddAll(map[], OpenSegment(before) + ChatMark(s).deltas)) else [])
    ensures !InTool(before + [s])
  {
    hide Flush, AddAll, OpenSegment;
    assert (before + [s])[..|before|] == before;
  }

  lemma NothingFlushed()
    ensures Flushed([]) == [] && !InTool([])
  {
    assert ChatMarks([]) == [];
  }

  lemma {:induction false} SentByFlushes(said: seq<Said>)
    requires OnlyFlushes(said)
    ensures Sent(said) == Emitting(Flushed(said)) && !InTool(said)
  {
    hide Flushed, Flush, AddAll, OpenSegment, Sends, InTool, ChatMark;
    if said == [] {
      NothingFlushed();
    } else {
      var front, last := said[..|said| - 1], said[|said| - 1];
      SentByFlushes(front);
      assert said == front + [last];
      FlushedNext(front, last);
      SendsByFlush(front, last);
      var more := if ChatMark(last).flushes then Flush(AddAll(map[], OpenSegment(front) + ChatMark(last).deltas)) else [];
      EmittingSplit(Flushed(front), more);
    }
  }

  /**
   The calls of every chat stream, other lines among its own included: each segment of pieces
   between two flushes gives its reassembled calls.
   */
  lemma ChatStreamCalls(responses: bool, lines: seq<Line>, ending: Ending, cancelled: bool)
    requires OnlyFlushes(SinceRetry(Heard(responses, lines)))
    ensures CallsSince(Published(Decode(responses, lines, ending), cancelled)) ==
            Emitting(Flushed(SinceRetry(Heard(responses, lines))))
  {
    EveryStreamCalls(responses, lines, ending, cancelled);
    SentByFlushes(SinceRetry(Heard(responses, lines)));
  }

  /**
   When all pieces come before the first flush, each index's pieces are reassembled and sent
   once, although the finishing chunk and [DONE] both flush.
   */
  lemma ChatStreamEmitsOnce(responses: bool, lines: seq<Line>, ending: Ending, cancelled: bool)
    requires OnlyFlushes(SinceRetry(Heard(responses, lines)))
    requires var marks := ChatMarks(SinceRetry(Heard(responses, lines)));
      Flushes(marks) > 0 && Segments(marks)[0] == AllDeltas(marks)
    ensures CallsSince(Published(Decode(responses, lines, ending), cancelled)) ==
            Emitting(Flush(AddAll(map[], AllDeltas(ChatMarks(SinceRetry(Heard(responses, lines)))))))
  {
    hide Segments, FlushAnew, Published, Decode, AddAll, Flush, AllDeltas, CallsSince, Emitting, Heard;
    var marks := ChatMarks(SinceRetry(Heard(responses, lines)));
    var segments := Segments(marks);
    SegmentsHoldAll(marks);
    OthersAreEmpty(segments);
    ChatStreamCalls(responses, lines, ending, cancelled);
    OnlyFirstSegment(segments[..|segments| - 1]);
  }

  // -------- Claude streams

  /** As Sends, with the input of a tool block alone: without what earlier blocks left behind. */
  ghost function SendsApart(before: seq<Said>, s: Said): seq<Event> {
    if Stops(s) && InTool(before) then
      [ToolCall(OpenBlock(before).name, OpenBlock(before).id, OrEmptyObject(OwnInput(before)))]
    else Sends(before, s)
  }

  ghost function SentApart(said: seq<Said>): seq<Event> {
    if said == [] then [] else SentApart(said[..|said| - 1]) + SendsApart(said[..|said| - 1], said[|said| - 1])
  }

  /** When a tool block stops nothing is left behind, or what is left spells what would be sent anyway. */
  predicate StopsApart(before: seq<Said>, s: Said) {
    Stops(s) && InTool(before) ==>
      LeftInput(before) == "" || (OwnInput(before) == "" && LeftInput(before) == "{}")
  }

  predicate InputsApart(said: seq<Said>) {
    forall i :: 0 <= i < |said| ==> StopsApart(said[..i], said[i])
  }

  /** A tool block is stopped before the next block starts. */
  predicate NoneGivenUp(said: seq<Said>) {
    forall i :: 0 <= i < |said| && Starts(said[i]) ==> !InTool(said[..i])
  }

  lemma SameInput(left: string, own: string)
    ensures OrEmptyObject(left + own) == OrEmptyObject(own) <==> left == "" || (own == "" && left == "{}")
  {
    Empty(left);
    Empty(own);
    assert |left + own| == |left| + |own|;
  }

  lemma ApartNext(said: seq<Said>, s: Said)
    ensures InputsApart(said + [s]) <==> InputsApart(said) && StopsApart(said, s)
  {
    hide StopsApart;
    var all := said + [s];
    assert all[..|said|] == said && all[|said|] == s;
    assert forall i :: 0 <= i < |said| ==> all[..i] == said[..i] && all[i] == said[i];
  }

  lemma SplitEquals<T>(a: seq<T>, b: seq<T>, c: seq<T>, d: seq<T>)
    requires |b| == |d|
    ensures a + b == c + d <==> a == c && b == d
  {
    if a + b == c + d {
      assert |a| == |c|;
      assert a == (a + b)[..|a|] && c == (c + d)[..|c|];
      assert b == (a + b)[|a|..] && d == (c + d)[|c|..];
    }
  }

  lemma SendsApartIff(before: seq<Said>, s: Said)
    ensures |Sends(before, s)| == |SendsApart(before, s)|
    ensures Sends(before, s) == SendsApart(before, s) <==> StopsApart(before, s)
  {
    hide OpenBlock, InTool, LeftInput, OwnInput, OrEmptyObject, Flush;
    SameInput(LeftInput(before), OwnInput(before));
  }

  lemma NothingApart()
    ensures InputsApart([])
  {
  }

  lemma {:induction false} ApartIff(said: seq<Said>)
    ensures Sent(said) == SentApart(said) <==> InputsApart(said)
  {
    hide InputsApart, StopsApart, Sends, SendsApart;
    if said == [] {
      NothingApart();
    } else {
      var front, last := said[..|said| - 1], said[|said| - 1];
      ApartIff(front);
      assert said == front + [last];
      ApartNext(front, last);
      SendsApartIff(front, last);
      SplitEquals(Sent(front), Sends(front, last), SentApart(front), SendsApart(front, last));
    }
  }

  lemma {:induction false} NothingLeft(said: seq<Said>)
    requires NoneGivenUp(said)
    ensures LeftInput(said) == ""
  {
    if said != [] {
      var front := said[..|said| - 1];
      assert forall i :: 0 <= i < |front| ==> front[..i] == said[..i] && front[i] == said[i];
      NothingLeft(front);
    }
  }

  lemma NoneGivenUpApart(said: seq<Said>)
    requires NoneGivenUp(said)
    ensures InputsApart(said)
  {
    hide InTool, LeftInput, OwnInput, Stops, Starts;
    forall i | 0 <= i < |said|
      ensures LeftInput(said[..i]) == ""
    {
      var front := said[..i];
      assert forall k :: 0 <= k < i ==> front[..k] == said[..k] && front[k] == said[k];
      NothingLeft(front);
    }
  }

  /**
   The tool blocks of every stream: each call has the name, id and input of its own block exactly
   when no stopped block follows one that was given up with some input. So it is for every
   stream that stops a tool block before it starts the next block.
   */
  lemma ClaudeStreamCalls(responses: bool, lines: seq<Line>, ending: Ending, cancelled: bool)
    ensures var said := SinceRetry(Heard(responses, lines));
      var calls := CallsSince(Published(Decode(responses, lines, ending), cancelled));
      && (calls == SentApart(said) <==> InputsApart(said))
      && (NoneGivenUp(said) ==> calls == SentApart(said))
  {
    hide Sent, SentApart, CallsSince, Published, Decode, Heard, NoneGivenUp, InputsApart;
    var said := SinceRetry(Heard(responses, lines));
    EveryStreamCalls(responses, lines, ending, cancelled);
    ApartIff(said);
    if NoneGivenUp(said) {
      NoneGivenUpApart(said);
    }
  }

  function Pieces(said: seq<Said>): string {
    if said == [] then "" else Pieces(said[..|said| - 1]) + PieceOf(said[|said| - 1])
  }

  /** From its start on the open block is the one that was started, and its input all pieces since, in order. */
  lemma {:induction false} WithinBlock(before: seq<Said>, start: Said, inner: seq<Said>)
    requires Starts(start) && forall i :: 0 <= i < |inner| ==> !Starts(inner[i]) && !Stops(inner[i])
    ensures OpenBlock(before + [start] + inner) == start.data.block
    ensures OwnInput(before + [start] + inner) == Pieces(inner)
  {
    var all := before + [start] + inner;
    if inner == [] {
      assert all == before + [start];
    } else {
      assert all[..|all| - 1] == before + [start] + inner[..|inner| - 1];
      WithinBlock(before, start, inner[..|inner| - 1]);
    }
  }

  lemma {:induction false} LeftWithin(before: seq<Said>, inner: seq<Said>)
    requires forall i :: 0 <= i < |inner| ==> !Starts(inner[i]) && !Stops(inner[i])
    ensures LeftInput(before + inner) == LeftInput(before)
  {
    if inner == [] {
      assert before + inner == before;
    } else {
      assert (before + inner)[..|before + inner| - 1] == before + inner[..|inner| - 1];
      LeftWithin(before, inner[..|inner| - 1]);
    }
  }

  /** A tool block given up for another one: the call of the second is sent with both inputs, joined. */
  lemma GivenUpInputIsJoined(before: seq<Said>, a: Said, first: seq<Said>, b: Said, second: seq<Said>, stop: Said)
    requires Starts(a) && Starts(b) && a.data.block.kind == b.data.block.kind == ToolBlock && Stops(stop)
    requires forall i :: 0 <= i < |first| ==> !Starts(first[i]) && !Stops(first[i])
    requires forall i :: 0 <= i < |second| ==> !Starts(second[i]) && !Stops(second[i])
    ensures Sends(before + [a] + first + [b] + second, stop) ==
            [ToolCall(b.data.block.name, b.data.block.id,
                      OrEmptyObject(LeftInput(before + [a]) + Pieces(first) + Pieces(second)))]
  {
    hide OrEmptyObject, Pieces, PieceOf;
    var begun := before + [a] + first;
    WithinBlock(before, a, first);
    WithinBlock(begun, b, second);
    LeftWithin(before + [a], first);
    LeftWithin(begun + [b], second);
    assert (begun + [b])[..|begun|] == begun;
  }

  // -------- responses streams

  ghost function Completions(said: seq<Said>): seq<Slot> {
    if said == [] then []
    else
      var front := said[..|said| - 1];
      Completions(front) + if Responds(said[|said| - 1], Completed) then Flush(Named(NotedCalls(Notes(front)))) else []
  }

  /** Nothing but a completion can send a call: no block is started and nothing flushed. */
  predicate OnlyCompletions(said: seq<Said>) {
    forall i :: 0 <= i < |said| ==> !Starts(said[i]) && !ChatMark(said[i]).flushes
  }

  lemma {:induction false} SentByCompletions(said: seq<Said>)
    requires OnlyCompletions(said)
    ensures Sent(said) == Emitting(Completions(said)) && !InTool(said)
  {
    if said != [] {
      hide Flush, Named, NotedCalls, Notes;
      var front, last := said[..|said| - 1], said[|said| - 1];
      SentByCompletions(front);
      var more := if Responds(last, Completed) then Flush(Named(NotedCalls(Notes(front)))) else [];
      EmittingSplit(Completions(front), more);
    }
  }

  /** The calls of every responses stream: each completion sends what was noted since the last one. */
  lemma ResponsesStreamCalls(responses: bool, lines: seq<Line>, ending: Ending, cancelled: bool)
    requires OnlyCompletions(SinceRetry(Heard(responses, lines)))
    ensures CallsSince(Published(Decode(responses, lines, ending), cancelled)) ==
            Emitting(Completions(SinceRetry(Heard(responses, lines))))
  {
    EveryStreamCalls(responses, lines, ending, cancelled);
    SentByCompletions(SinceRetry(Heard(responses, lines)));
  }

  /**
   What a completion sends: each index whose call got an id and a name, once, in ascending order,
   with the id and name stated last; missing arguments become an empty object.
   */
  lemma CompletionIsComplete(notes: seq<Note>)
    ensures var slots := Flush(Named(NotedCalls(notes)));
      && (forall s :: s in slots <==>
            && s.index in NotedIndexes(notes) && NotedId(notes, s.index) != "" && NotedName(notes, s.index) != ""
            && s.call == Call(NotedId(notes, s.index), NotedName(notes, s.index),
                              OrEmptyObject(NotedArguments(notes, s.index))))
      && (forall i, j :: 0 <= i < j < |slots| ==> slots[i].index < slots[j].index)
  {
    hide NotedId, NotedName, NotedArguments, NotedIndexes;
    var calls := Named(NotedCalls(notes));
    AlongHolds(Sorted(calls.Keys), calls);
    WithArgumentsAscend(Sorted(calls.Keys), calls);
  }

  function PiecesOf(notes: seq<Note>, x: Index): string {
    if notes == [] then ""
    else
      var last := notes[|notes| - 1];
      PiecesOf(notes[..|notes| - 1], x) + if last.index == x then last.piece else ""
  }

  /** Without a statement of the whole the arguments are the pieces, joined to what was known. */
  lemma {:induction false} PiecesOnly(before: seq<Note>, after: seq<Note>, x: Index)
    requires forall i :: 0 <= i < |after| && after[i].index == x ==> after[i].whole == ""
    ensures NotedArguments(before + after, x) == NotedArguments(before, x) + PiecesOf(after, x)
  {
    if after == [] {
      assert before + after == before;
      Empty(NotedArguments(before, x));
    } else {
      var front, last := after[..|after| - 1], after[|after| - 1];
      PiecesOnly(before, front, x);
      assert (before + after)[..|before + after| - 1] == before + front;
      var more := if last.index == x then last.piece else "";
      Associate(NotedArguments(before, x), PiecesOf(front, x), more);
      Empty(NotedArguments(before, x) + PiecesOf(front, x));
    }
  }

  /** A done event's arguments replace whatever was known, and only pieces after it are added. */
  lemma WholeReplaces(before: seq<Note>, whole: Note, after: seq<Note>)
    requires whole.whole != "" && whole.piece == ""
    requires forall i :: 0 <= i < |after| && after[i].index == whole.index ==> after[i].whole == ""
    ensures NotedArguments(before + [whole] + after, whole.index) == whole.whole + PiecesOf(after, whole.index)
  {
    PiecesOnly(before + [whole], after, whole.index);
    assert (before + [whole])[..|before|] == before;
    Empty(whole.whole);
  }
}
