/** The script that the Go agent's run loop plays against, and what a run of it writes. */
module RunScript {
  import opened ConversationLog
  import opened Sequences
  import SseStream

  // ---------------------------------------------------------------- the script

  /**
   A background result or user injection, as the text it puts into the conversation. It is never
   empty: results are written under a headline, and an empty injection is not sent.
   */
  type Note = s: string | s != "" witness "note"

  datatype Trigger = Auto | PlanConfirm | PlanClear

  /** What one compaction attempt meets: the search's best cut and verdict, context pressure, the summary call. */
  datatype CompactChoice = CompactChoice(bestK: nat, dpAccepts: bool, nearLimit: bool, keepRatio: real, summaryOk: bool)

  datatype Effect = Plain | Fork | Plan(trigger: Trigger, choice: CompactChoice)

  datatype StreamEvent =
    | Text(delta: string)
    | Thinking(delta: string)
    | ToolCall(call: Call, effect: Effect, output: string, convOutput: string)
    | Stop(reason: string)
    | Error(message: string)
    | Retry
    | Other

  datatype TurnEnv = TurnEnv(
    notesBefore: seq<Note>, auto: CompactChoice, requestOk: bool,
    events: seq<StreamEvent>, interruptAt: nat, notesAfter: seq<Note>)

  datatype PhaseKind = UserInput | Notify | Injected

  datatype PhaseEnv = PhaseEnv(kind: PhaseKind, input: string, notes: seq<Note>, turns: seq<TurnEnv>)

  datatype TurnEnd = NextTurn | PhaseDone | Fatal | Interrupted

  // ---------------------------------------------------------------- what a script writes

  /** What the event loop has gathered in one turn. */
  datatype Gathered = Gathered(text: string, thinking: string, calls: seq<Call>, results: seq<ToolResult>, stop: string)

  const NOTHING := Gathered("", "", [], [], "")

  function Gather(g: Gathered, ev: StreamEvent): Gathered {
    match ev
    case Text(d) => g.(text := g.text + d)
    case Thinking(d) => g.(thinking := g.thinking + d)
    case ToolCall(call, _, output, convOutput) =>
      g.(calls := g.calls + [call],
         results := g.results + [ToolResult(call.id, if convOutput != "" then convOutput else output)])
    case Stop(reason) => g.(stop := reason)
    case Error(_) => g.(stop := "error")
    case Retry => Gathered("", "", [], [], g.stop)
    case Other => g
  }

  function GatherAll(events: seq<StreamEvent>): Gathered {
    if events == [] then NOTHING
    else Gather(GatherAll(events[..|events| - 1]), events[|events| - 1])
  }

  /** The user lines of some texts; an empty text makes none. */
  function UserTexts(notes: seq<string>): Log {
    if notes == [] then []
    else
      var last := notes[|notes| - 1];
      UserTexts(notes[..|notes| - 1]) + if last != "" then [UserText(last)] else []
  }

  lemma {:induction false} NotesAreWritten(notes: seq<Note>)
    ensures |UserTexts(notes)| == |notes|
  {
    if notes != [] { NotesAreWritten(notes[..|notes| - 1]); }
  }

  predicate FatalStop(reason: string) {
    reason == "error" || reason == "max_tokens" || reason == "length"
  }

  predicate ToolStop(reason: string) {
    reason == "tool_use" || reason == "tool_calls"
  }

  function Saved(g: Gathered): Log {
    [Assistant(g.thinking, g.text, g.calls)] + if g.results != [] then [ToolResults(g.results)] else []
  }

  /** The entries one turn adds, and how it ends. Compactions and forks do not appear: they add nothing. */
  function TurnWrites(env: TurnEnv): (Log, TurnEnd) {
    var before := UserTexts(env.notesBefore);
    if !env.requestOk then (before, Fatal)
    else if env.interruptAt <= |env.events| then (before, Interrupted)
    else
      var g := GatherAll(env.events);
      if FatalStop(g.stop) then (before, Fatal)
      else if ToolStop(g.stop) then (before + Saved(g), NextTurn)
      else (before + Saved(g) + UserTexts(env.notesAfter), if env.notesAfter != [] then NextTurn else PhaseDone)
  }

  function TurnsWrite(turns: seq<TurnEnv>, budget: nat): (Log, TurnEnd) {
    if budget == 0 || turns == [] then ([], PhaseDone)
    else
      var (w, end) := TurnWrites(turns[0]);
      if end != NextTurn then (w, end)
      else
        var (rest, end') := TurnsWrite(turns[1..], budget - 1);
        (w + rest, end')
  }

  function PhaseOpens(env: PhaseEnv): Log {
    if env.kind == Notify then UserTexts(env.notes) else [UserText(env.input)]
  }

  function RunWrites(phases: seq<PhaseEnv>, maxTurns: nat): Log {
    if phases == [] || (phases[0].kind == Notify && phases[0].notes == []) then []
    else
      var (w, end) := TurnsWrite(phases[0].turns, maxTurns);
      PhaseOpens(phases[0]) + w + if end == Interrupted then [] else RunWrites(phases[1..], maxTurns)
  }

  // ---------------------------------------------------------------- what every script writes is paired

  lemma GatherNext(events: seq<StreamEvent>, i: nat)
    requires i < |events|
    ensures GatherAll(events[..i + 1]) == Gather(GatherAll(events[..i]), events[i])
  {
    assert events[..i + 1][..i] == events[..i];
  }

  /** The reply never holds a call without its result, nor a result without its call. */
  lemma {:induction false} GatherAnswers(events: seq<StreamEvent>)
    ensures Answers(GatherAll(events).results, GatherAll(events).calls)
  {
    if events != [] { GatherAnswers(events[..|events| - 1]); }
  }

  /**
   A retry discards the text, calls and results before it. The stop reason is not
   discarded, so the reply is that of the retried stream alone exactly when the
   retried stream states a reason of its own or the first one left none.
   */
  lemma {:induction false} RetryForgetsIff(first: seq<StreamEvent>, second: seq<StreamEvent>)
    ensures var g, h := GatherAll(first + [Retry] + second), GatherAll(second);
      && g == h.(stop := if StatesStop(second) then h.stop else GatherAll(first).stop)
      && (g == h <==> StatesStop(second) || GatherAll(first).stop == "")
  {
    var all := first + [Retry] + second;
    if second == [] {
      assert all[..|all| - 1] == first;
    } else {
      assert all[..|all| - 1] == first + [Retry] + second[..|second| - 1];
      RetryForgetsIff(first, second[..|second| - 1]);
      StopUnstated(second[..|second| - 1]);
      assert second[..|second| - 1] + [second[|second| - 1]] == second;
    }
    StopUnstated(second);
  }

  predicate StatesStop(events: seq<StreamEvent>) {
    exists i :: 0 <= i < |events| && (events[i].Stop? || events[i].Error?)
  }

  lemma {:induction false} StopUnstated(events: seq<StreamEvent>)
    ensures !StatesStop(events) ==> GatherAll(events).stop == ""
  {
    if events != [] { StopUnstated(events[..|events| - 1]); }
  }

  // ---------------------------------------------------------------- the streams the loop reads

  /** The script's event is this event of the transport; what a tool does with a call is the script's. */
  predicate Receives(ev: StreamEvent, sent: SseStream.Event) {
    match sent
    case Text(text) => ev == Text(text)
    case Thinking(text) => ev == Thinking(text)
    case ToolCall(name, id, input) => ev.ToolCall? && ev.call == Call(id, name, input)
    case Usage(_, _) => ev == Other
    case Stop(reason) => ev == Stop(reason)
    case Error(message) => ev == Error(message)
    case Retry => ev == Retry
  }

  predicate ReceivesAll(events: seq<StreamEvent>, sent: seq<SseStream.Event>) {
    |events| == |sent| && forall i :: 0 <= i < |sent| ==> Receives(events[i], sent[i])
  }

  /** The calls of a reply, as its events bring them. */
  function CallsAmong(sent: seq<SseStream.Event>): seq<Call> {
    if sent == [] then []
    else
      var last := sent[|sent| - 1];
      CallsAmong(sent[..|sent| - 1]) + if last.ToolCall? then [Call(last.id, last.name, last.input)] else []
  }

  lemma {:induction false} GatherCalls(events: seq<StreamEvent>, sent: seq<SseStream.Event>)
    requires ReceivesAll(events, sent) && forall i :: 0 <= i < |sent| ==> !sent[i].Retry?
    ensures GatherAll(events).calls == CallsAmong(sent)
  {
    if sent != [] { GatherCalls(events[..|events| - 1], sent[..|sent| - 1]); }
  }

  /** The stop reason of a reply whose last event is a stop. */
  lemma LastStopCounts(events: seq<StreamEvent>)
    requires events != [] && events[|events| - 1].Stop?
    ensures GatherAll(events).stop == events[|events| - 1].reason && StatesStop(events)
  {
  }

  /** After a retry, when the last event is a stop. */
  lemma RetriedReply(events: seq<StreamEvent>, r: nat)
    requires r + 1 < |events| && events[r] == Retry && events[|events| - 1].Stop?
    ensures GatherAll(events) == GatherAll(events[r + 1..])
    ensures GatherAll(events).stop == events[|events| - 1].reason
  {
    hide GatherAll;
    var rest := events[r + 1..];
    assert events == events[..r] + [Retry] + rest;
    LastStopCounts(events);
    LastStopCounts(rest);
    RetryForgetsIff(events[..r], rest);
  }

  lemma ReceivesRest(events: seq<StreamEvent>, sent: seq<SseStream.Event>, r: nat)
    requires ReceivesAll(events, sent) && r < |events|
    ensures ReceivesAll(events[r + 1..], sent[r + 1..]) && Receives(events[r], sent[r])
    ensures Receives(events[|events| - 1], sent[|sent| - 1])
  {
  }

  /**
   Every stream the decoder publishes ends with a stop, so the reply that the loop gathers from it
   is that of the part after any retry, the last one included; it stops with the published reason.
   */
  lemma RetryForgets(responses: bool, lines: seq<SseStream.Line>, ending: SseStream.Ending, cancelled: bool,
                     sent: seq<SseStream.Event>, events: seq<StreamEvent>, r: nat)
    requires sent == SseStream.Published(SseStream.Decode(responses, lines, ending), cancelled)
    requires ReceivesAll(events, sent) && r < |sent| == |events| && events[r] == Retry
    ensures GatherAll(events) == GatherAll(events[r + 1..])
    ensures sent[|sent| - 1] == SseStream.Stop(GatherAll(events).stop)
    ensures (forall i :: r < i < |sent| ==> !sent[i].Retry?) ==> GatherAll(events).calls == CallsAmong(sent[r + 1..])
  {
    hide SseStream.Published, SseStream.Decode, GatherAll, CallsAmong, ReceivesAll;
    SseStream.PublishedShape(responses, lines, ending, cancelled);
    ReceivesRest(events, sent, r);
    RetriedReply(events, r);
    if forall i :: r < i < |sent| ==> !sent[i].Retry? {
      GatherCalls(events[r + 1..], sent[r + 1..]);
    }
  }

  lemma SavedIsPaired(history: Log, g: Gathered)
    requires WellFormed(history) && history != [] && Answers(g.results, g.calls)
    ensures WellFormed(history + Saved(g))
  {
    var saved := Saved(g);
    if g.results != [] {
      AppendCalls(history, g.thinking, g.text, g.calls, g.results);
      assert history + [saved[0]] + [saved[1]] == history + saved;
    } else {
      AppendReply(history, g.thinking, g.text);
      assert history + [saved[0]] == history + saved;
    }
  }

  lemma {:induction false} UserTextsArePaired(history: Log, notes: seq<string>)
    requires WellFormed(history)
    ensures WellFormed(history + UserTexts(notes))
  {
    if notes == [] {
      assert history + UserTexts(notes) == history;
    } else {
      var front, last := UserTexts(notes[..|notes| - 1]), notes[|notes| - 1];
      UserTextsArePaired(history, notes[..|notes| - 1]);
      AppendUser(history + front, last);
      Associate(history, front, [UserText(last)]);
      assert front + [] == front;
    }
  }

  lemma TurnIsPaired(history: Log, env: TurnEnv)
    requires WellFormed(history) && history != []
    ensures WellFormed(history + TurnWrites(env).0)
  {
    UserTextsArePaired(history, env.notesBefore);
    var before := history + UserTexts(env.notesBefore);
    var g := GatherAll(env.events);
    GatherAnswers(env.events);
    SavedIsPaired(before, g);
    Associate(history, UserTexts(env.notesBefore), Saved(g));
    UserTextsArePaired(before + Saved(g), env.notesAfter);
    Associate(history, UserTexts(env.notesBefore) + Saved(g), UserTexts(env.notesAfter));
  }

  lemma {:induction false} TurnsArePaired(history: Log, turns: seq<TurnEnv>, budget: nat)
    requires WellFormed(history) && history != []
    ensures WellFormed(history + TurnsWrite(turns, budget).0)
    decreases |turns|
  {
    if budget == 0 || turns == [] {
      assert history + [] == history;
    } else {
      var (w, end) := TurnWrites(turns[0]);
      TurnIsPaired(history, turns[0]);
      if end == NextTurn {
        TurnsArePaired(history + w, turns[1..], budget - 1);
        Associate(history, w, TurnsWrite(turns[1..], budget - 1).0);
      }
    }
  }

  /** Every run adds a paired continuation to a paired history. */
  lemma {:induction false} RunIsPaired(history: Log, phases: seq<PhaseEnv>, maxTurns: nat)
    requires WellFormed(history)
    ensures WellFormed(history + RunWrites(phases, maxTurns))
    decreases |phases|
  {
    if phases == [] || (phases[0].kind == Notify && phases[0].notes == []) {
      assert history + [] == history;
    } else {
      var opens := PhaseOpens(phases[0]);
      var (w, end) := TurnsWrite(phases[0].turns, maxTurns);
      if phases[0].kind == Notify {
        UserTextsArePaired(history, phases[0].notes);
        NotesAreWritten(phases[0].notes);
      } else {
        AppendUser(history, phases[0].input);
      }
      TurnsArePaired(history + opens, phases[0].turns, maxTurns);
      Associate(history, opens, w);
      if end != Interrupted {
        RunIsPaired(history + (opens + w), phases[1..], maxTurns);
        Associate(history, opens + w, RunWrites(phases[1..], maxTurns));
      } else {
        assert opens + w + [] == opens + w;
      }
    }
  }
}
