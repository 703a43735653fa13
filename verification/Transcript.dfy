/** What a run leaves in the conversation. */
module Transcript {
  import opened ConversationLog
  import opened RunScript
  import opened Sequences

  // ---------------------------------------------------------------- one reply

  /** The events behind the last retry. */
  function SinceRetry(events: seq<StreamEvent>): seq<StreamEvent> {
    if Retry in events then SinceRetry(events[1..]) else events
  }

  function TextOf(ev: StreamEvent): string {
    if ev.Text? then ev.delta else ""
  }

  function ThoughtOf(ev: StreamEvent): string {
    if ev.Thinking? then ev.delta else ""
  }

  function CallOf(ev: StreamEvent): seq<Call> {
    if ev.ToolCall? then [ev.call] else []
  }

  /** The result of a call: what its tool put down for the conversation, or its output when that is empty. */
  function ResultOf(ev: StreamEvent): seq<ToolResult> {
    match ev
    case ToolCall(call, _, output, "") => [ToolResult(call.id, output)]
    case ToolCall(call, _, _, convOutput) => [ToolResult(call.id, convOutput)]
    case _ => []
  }

  predicate States(ev: StreamEvent, reason: string) {
    ev == StreamEvent.Stop(reason) || (ev.Error? && reason == "error")
  }

  /** The stop reason stated last, before or behind a retry; none when nothing states one. */
  predicate IsReason(events: seq<StreamEvent>, reason: string) {
    if StatesStop(events) then
      exists i :: 0 <= i < |events| && States(events[i], reason) && !StatesStop(events[i + 1..])
    else reason == ""
  }

  /** The request is answered, and the answer read to its end. */
  predicate ReadToEnd(env: TurnEnv) {
    env.requestOk && env.interruptAt > |env.events|
  }

  predicate StopsWith(env: TurnEnv, reasons: set<string>) {
    exists reason :: reason in reasons && IsReason(env.events, reason)
  }

  /** Turns whose reply is kept: read to its end, and no error and no overrun. */
  predicate Kept(env: TurnEnv) {
    ReadToEnd(env) && !StopsWith(env, {"error", "max_tokens", "length"})
  }

  predicate AsksForTools(env: TurnEnv) {
    StopsWith(env, {"tool_use", "tool_calls"})
  }

  /** Another turn follows: tools were asked for, or something arrived behind the reply. */
  predicate GoesOn(env: TurnEnv) {
    Kept(env) && (AsksForTools(env) || env.notesAfter != [])
  }

  function ReplyOf(env: TurnEnv): Entry {
    var events := SinceRetry(env.events);
    Assistant(Concat(ThoughtOf, events), Concat(TextOf, events), Concat(CallOf, events))
  }

  function ResultsOf(env: TurnEnv): seq<ToolResult> {
    Concat(ResultOf, SinceRetry(env.events))
  }

  // ---------------------------------------------------------------- which turns are taken

  predicate Broken(env: TurnEnv) {
    env.requestOk && env.interruptAt <= |env.events|
  }

  /** The first n turns of a phase: each but the last goes on, and the last one does not unless the budget or script ends. */
  predicate IsTaken(turns: seq<TurnEnv>, budget: nat, n: nat) {
    && n <= |turns| && n <= budget
    && (forall i :: 0 <= i < n - 1 ==> GoesOn(turns[i]))
    && (n < |turns| && n < budget ==> n > 0 && !GoesOn(turns[n - 1]))
  }

  function Taken(turns: seq<TurnEnv>, budget: nat): seq<TurnEnv> {
    if turns == [] || budget == 0 then []
    else [turns[0]] + if GoesOn(turns[0]) then Taken(turns[1..], budget - 1) else []
  }

  predicate EndsBroken(turns: seq<TurnEnv>) {
    turns != [] && Broken(turns[|turns| - 1])
  }

  predicate Breaks(env: PhaseEnv, maxTurns: nat) {
    EndsBroken(Taken(env.turns, maxTurns))
  }

  /** The phases of a run, up to an interrupt or to a wake-up that finds nothing. */
  function PhasesTaken(phases: seq<PhaseEnv>, maxTurns: nat): seq<PhaseEnv> {
    if phases == [] || (phases[0].kind == Notify && phases[0].notes == []) then []
    else [phases[0]] + if Breaks(phases[0], maxTurns) then [] else PhasesTaken(phases[1..], maxTurns)
  }

  function TurnsOf(phases: seq<PhaseEnv>, maxTurns: nat): seq<TurnEnv> {
    if phases == [] then [] else Taken(phases[0].turns, maxTurns) + TurnsOf(phases[1..], maxTurns)
  }

  // ---------------------------------------------------------------- the lines of a run

  function UserLineOf(text: string): Log {
    if text == "" then [] else [UserText(text)]
  }

  function UserLinesOf(texts: seq<string>): Log {
    Concat(UserLineOf, texts)
  }

  /** Notes in front of the reply, the reply, its results right behind it, and notes behind a reply that asks for nothing. */
  function TurnLines(env: TurnEnv): Log {
    UserLinesOf(env.notesBefore) +
    if !Kept(env) then []
    else
      [ReplyOf(env)] + (if ResultsOf(env) == [] then [] else [ToolResults(ResultsOf(env))]) +
      if AsksForTools(env) then [] else UserLinesOf(env.notesAfter)
  }

  function TurnsLines(turns: seq<TurnEnv>): Log {
    Concat(TurnLines, turns)
  }

  function PhaseLines(env: PhaseEnv, maxTurns: nat): Log {
    (if env.kind == Notify then UserLinesOf(env.notes) else [UserText(env.input)]) +
    TurnsLines(Taken(env.turns, maxTurns))
  }

  function RunLines(phases: seq<PhaseEnv>, maxTurns: nat): Log {
    if phases == [] then [] else PhaseLines(phases[0], maxTurns) + RunLines(phases[1..], maxTurns)
  }

  // ---------------------------------------------------------------- what a log holds of each kind

  function ReplyIn(e: Entry): Log {
    if e.Assistant? then [e] else []
  }

  function UserTextIn(e: Entry): seq<string> {
    if e.UserText? then [e.text] else []
  }

  function ToolResultsIn(e: Entry): seq<ToolResult> {
    if e.ToolResults? then e.results else []
  }

  function RepliesIn(log: Log): Log {
    Concat(ReplyIn, log)
  }

  function UserTextsIn(log: Log): seq<string> {
    Concat(UserTextIn, log)
  }

  function ResultsIn(log: Log): seq<ToolResult> {
    Concat(ToolResultsIn, log)
  }

  function KeptReply(env: TurnEnv): Log {
    if Kept(env) then [ReplyOf(env)] else []
  }

  function KeptResultsOf(env: TurnEnv): seq<ToolResult> {
    if Kept(env) then ResultsOf(env) else []
  }

  function KeptReplies(turns: seq<TurnEnv>): Log {
    Concat(KeptReply, turns)
  }

  function KeptResults(turns: seq<TurnEnv>): seq<ToolResult> {
    Concat(KeptResultsOf, turns)
  }

  /** The notes that reach the conversation in some turns. */
  function NotesOf(turns: seq<TurnEnv>): seq<string> {
    if turns == [] then []
    else
      turns[0].notesBefore + (if Kept(turns[0]) && !AsksForTools(turns[0]) then turns[0].notesAfter else [])
      + NotesOf(turns[1..])
  }

  function InputsAndNotes(phases: seq<PhaseEnv>, maxTurns: nat): seq<string> {
    if phases == [] then []
    else
      (if phases[0].kind == Notify then phases[0].notes else [phases[0].input]) + NotesOf(Taken(phases[0].turns, maxTurns))
      + InputsAndNotes(phases[1..], maxTurns)
  }

  // ---------------------------------------------------------------- the gathered reply

  lemma {:induction false} RetryNext(events: seq<StreamEvent>, e: StreamEvent)
    ensures SinceRetry(events + [e]) == if e == Retry then [] else SinceRetry(events) + [e]
  {
    var all := events + [e];
    if events == [] {
      assert all == [e] && all[1..] == [];
    } else if Retry in all {
      assert all[1..] == events[1..] + [e];
      RetryNext(events[1..], e);
      if Retry !in events {
        assert Retry !in events[1..];
      }
    }
  }

  /** The event loop gathers what stands behind the last retry. */
  lemma {:induction false} GatheredIs(events: seq<StreamEvent>)
    ensures var g, rest := GatherAll(events), SinceRetry(events);
      && g.text == Concat(TextOf, rest) && g.thinking == Concat(ThoughtOf, rest)
      && g.calls == Concat(CallOf, rest) && g.results == Concat(ResultOf, rest)
  {
    if events != [] {
      hide Concat;
      var front, e := events[..|events| - 1], events[|events| - 1];
      assert events == front + [e];
      GatheredIs(front);
      RetryNext(front, e);
      ConcatNext(TextOf, SinceRetry(front), e);
      ConcatNext(ThoughtOf, SinceRetry(front), e);
      ConcatNext(CallOf, SinceRetry(front), e);
      ConcatNext(ResultOf, SinceRetry(front), e);
      ConcatNothing(TextOf);
      ConcatNothing(ThoughtOf);
      ConcatNothing(CallOf);
      ConcatNothing(ResultOf);
    }
  }

  lemma {:induction false} ReasonIs(events: seq<StreamEvent>)
    ensures IsReason(events, GatherAll(events).stop)
  {
    if events != [] {
      var n := |events| - 1;
      var front, e := events[..n], events[n];
      ReasonIs(front);
      assert events == front + [e];
      if e.Stop? || e.Error? {
        assert States(events[n], GatherAll(events).stop) && events[n + 1..] == [];
      } else {
        assert GatherAll(events).stop == GatherAll(front).stop;
        ReasonStays(front, e, GatherAll(front).stop);
      }
    }
  }

  lemma ReasonStays(front: seq<StreamEvent>, e: StreamEvent, reason: string)
    requires IsReason(front, reason) && !e.Stop? && !e.Error?
    ensures IsReason(front + [e], reason)
  {
    var events := front + [e];
    StatesNext(front, e);
    if StatesStop(front) {
      var i :| 0 <= i < |front| && States(front[i], reason) && !StatesStop(front[i + 1..]);
      StatesNext(front[i + 1..], e);
      assert events[i + 1..] == front[i + 1..] + [e];
      assert events[i] == front[i];
    }
  }

  lemma StatesNext(events: seq<StreamEvent>, e: StreamEvent)
    ensures StatesStop(events + [e]) <==> StatesStop(events) || e.Stop? || e.Error?
  {
    var all := events + [e];
    assert all[|events|] == e;
    if StatesStop(events) {
      var i :| 0 <= i < |events| && (events[i].Stop? || events[i].Error?);
      assert all[i] == events[i];
    }
    if StatesStop(all) {
      var i :| 0 <= i < |all| && (all[i].Stop? || all[i].Error?);
      assert i < |events| ==> events[i] == all[i];
    }
  }

  lemma ReasonIsUnique(events: seq<StreamEvent>, r1: string, r2: string)
    requires IsReason(events, r1) && IsReason(events, r2)
    ensures r1 == r2
  {
    if StatesStop(events) {
      var i :| 0 <= i < |events| && States(events[i], r1) && !StatesStop(events[i + 1..]);
      var j :| 0 <= j < |events| && States(events[j], r2) && !StatesStop(events[j + 1..]);
      StatesBehind(events, i, j);
      StatesBehind(events, j, i);
    }
  }

  lemma StatesBehind(events: seq<StreamEvent>, i: nat, j: nat)
    requires i < |events| && j < |events| && (events[j].Stop? || events[j].Error?)
    ensures i < j ==> StatesStop(events[i + 1..])
  {
    if i < j {
      assert events[i + 1..][j - i - 1] == events[j];
    }
  }

  lemma StopsWithIff(env: TurnEnv, reasons: set<string>)
    ensures StopsWith(env, reasons) <==> GatherAll(env.events).stop in reasons
  {
    ReasonIs(env.events);
    forall reason | IsReason(env.events, reason) ensures reason == GatherAll(env.events).stop {
      ReasonIsUnique(env.events, reason, GatherAll(env.events).stop);
    }
  }

  // ---------------------------------------------------------------- what a script writes is its transcript

  lemma {:induction false} UserTextsAreLines(texts: seq<string>)
    ensures UserTexts(texts) == UserLinesOf(texts)
  {
    if texts != [] {
      hide Concat;
      var n := |texts| - 1;
      UserTextsAreLines(texts[..n]);
      ConcatNext(UserLineOf, texts[..n], texts[n]);
      assert texts == texts[..n] + [texts[n]];
    }
  }

  lemma TurnIsTold(env: TurnEnv)
    ensures TurnWrites(env).0 == TurnLines(env)
    ensures TurnWrites(env).1 == NextTurn <==> GoesOn(env)
    ensures TurnWrites(env).1 == Interrupted <==> Broken(env)
  {
    hide IsReason, StopsWith, GatherAll, UserTexts, UserLinesOf, SinceRetry;
    UserTextsAreLines(env.notesBefore);
    UserTextsAreLines(env.notesAfter);
    StopsWithIff(env, {"error", "max_tokens", "length"});
    StopsWithIff(env, {"tool_use", "tool_calls"});
    GatheredIs(env.events);
    Associate(UserLinesOf(env.notesBefore), Saved(GatherAll(env.events)), UserLinesOf(env.notesAfter));
  }

  lemma TakenNext(turns: seq<TurnEnv>, budget: nat)
    requires turns != [] && budget > 0
    ensures Taken(turns, budget) == [turns[0]] + if GoesOn(turns[0]) then Taken(turns[1..], budget - 1) else []
  {
    hide GoesOn;
  }

  lemma TurnsLinesNext(first: TurnEnv, rest: seq<TurnEnv>)
    ensures TurnsLines([first] + rest) == TurnLines(first) + TurnsLines(rest)
    ensures TurnsLines([]) == []
  {
    ConcatFirst(TurnLines, first, rest);
  }

  lemma EndsBrokenNext(first: TurnEnv, rest: seq<TurnEnv>)
    ensures EndsBroken([first] + rest) <==> if rest == [] then Broken(first) else EndsBroken(rest)
  {
    hide Broken;
  }

  lemma {:induction false} TurnsAreTold(turns: seq<TurnEnv>, budget: nat)
    ensures TurnsWrite(turns, budget).0 == TurnsLines(Taken(turns, budget))
    ensures TurnsWrite(turns, budget).1 == Interrupted <==> EndsBroken(Taken(turns, budget))
    decreases |turns|
  {
    hide TurnWrites, TurnLines, GoesOn, Broken, TurnsLines, EndsBroken;
    if turns != [] && budget > 0 {
      TurnIsTold(turns[0]);
      TakenNext(turns, budget);
      var rest := if GoesOn(turns[0]) then Taken(turns[1..], budget - 1) else [];
      TurnsLinesNext(turns[0], rest);
      EndsBrokenNext(turns[0], rest);
      OnlyOne(turns[0]);
      NoTurnBreaks();
      if GoesOn(turns[0]) {
        TurnsAreTold(turns[1..], budget - 1);
      }
    } else {
      NoTurnBreaks();
    }
  }

  lemma NoTurnBreaks()
    ensures !EndsBroken([]) && TurnsLines([]) == []
  {
  }

  lemma OnlyOne(env: TurnEnv)
    ensures GoesOn(env) ==> !Broken(env)
  {
  }

  /** A run writes its transcript, nothing else, and in this order. */
  lemma {:induction false} RunIsTold(phases: seq<PhaseEnv>, maxTurns: nat)
    ensures RunWrites(phases, maxTurns) == RunLines(PhasesTaken(phases, maxTurns), maxTurns)
    decreases |phases|
  {
    if phases != [] && !(phases[0].kind == Notify && phases[0].notes == []) {
      hide TurnsWrite, TurnsLines, Taken, UserTexts, UserLinesOf, Broken;
      UserTextsAreLines(phases[0].notes);
      TurnsAreTold(phases[0].turns, maxTurns);
      var taken := PhasesTaken(phases, maxTurns);
      if Breaks(phases[0], maxTurns) {
        assert taken == [phases[0]] && taken[1..] == [];
      } else {
        assert taken[1..] == PhasesTaken(phases[1..], maxTurns);
        RunIsTold(phases[1..], maxTurns);
      }
    }
  }

  /** Which turns those are, by themselves. */
  lemma {:induction false} TakenIff(turns: seq<TurnEnv>, budget: nat, n: nat)
    ensures IsTaken(turns, budget, n) <==> n <= |turns| && Taken(turns, budget) == turns[..n]
  {
    hide GoesOn;
    if turns != [] && budget > 0 {
      if !GoesOn(turns[0]) {
        assert Taken(turns, budget) == [turns[0]] == turns[..1];
      } else if 0 < n <= |turns| {
        TakenIff(turns[1..], budget - 1, n - 1);
        TakenCons(turns, budget, n);
        FirstApart(turns[..n], []);
        assert turns[..n][1..] == turns[1..][..n - 1];
        OneMore(turns[0], Taken(turns[1..], budget - 1), turns[1..][..n - 1]);
      }
    }
  }

  lemma OneMore<T>(x: T, a: seq<T>, b: seq<T>)
    ensures [x] + a == [x] + b <==> a == b
  {
    assert ([x] + a)[1..] == a && ([x] + b)[1..] == b;
  }

  lemma TakenCons(turns: seq<TurnEnv>, budget: nat, n: nat)
    requires turns != [] && budget > 0 && n > 0 && GoesOn(turns[0])
    ensures IsTaken(turns, budget, n) <==> IsTaken(turns[1..], budget - 1, n - 1)
  {
    hide GoesOn;
    if IsTaken(turns[1..], budget - 1, n - 1) {
      forall i | 0 <= i < n - 1 ensures GoesOn(turns[i]) {
        if i > 0 { assert turns[i] == turns[1..][i - 1]; }
      }
      assert n > 1 ==> turns[n - 1] == turns[1..][n - 2];
    }
    if IsTaken(turns, budget, n) {
      forall i | 0 <= i < n - 2 ensures GoesOn(turns[1..][i]) {
        assert turns[1..][i] == turns[i + 1];
      }
      assert n > 1 ==> turns[n - 1] == turns[1..][n - 2];
    }
  }

  // ---------------------------------------------------------------- replies, results and user texts

  lemma KindsAppend(a: Log, b: Log)
    ensures RepliesIn(a + b) == RepliesIn(a) + RepliesIn(b)
    ensures UserTextsIn(a + b) == UserTextsIn(a) + UserTextsIn(b)
    ensures ResultsIn(a + b) == ResultsIn(a) + ResultsIn(b)
  {
    ConcatSplit(ReplyIn, a, b);
    ConcatSplit(UserTextIn, a, b);
    ConcatSplit(ToolResultsIn, a, b);
  }

  lemma {:induction false} KindsOfNotes(notes: seq<Note>)
    ensures RepliesIn(UserLinesOf(notes)) == [] && ResultsIn(UserLinesOf(notes)) == []
    ensures UserTextsIn(UserLinesOf(notes)) == notes
  {
    if notes == [] {
      KindsOfNothing();
    } else {
      hide RepliesIn, ResultsIn, UserTextsIn, Concat;
      var first, rest := notes[0], notes[1..];
      KindsOfNotes(rest);
      assert notes == [first] + rest;
      ConcatFirst(UserLineOf, first, rest);
      KindsAppend([UserText(first)], UserLinesOf(rest));
      KindsOfOne(UserText(first));
    }
  }

  lemma KindsOfOne(e: Entry)
    ensures RepliesIn([e]) == ReplyIn(e) && UserTextsIn([e]) == UserTextIn(e) && ResultsIn([e]) == ToolResultsIn(e)
  {
    ConcatOne(ReplyIn, e);
    ConcatOne(UserTextIn, e);
    ConcatOne(ToolResultsIn, e);
  }

  lemma KindsOfNothing()
    ensures RepliesIn([]) == [] && UserTextsIn([]) == [] && ResultsIn([]) == []
  {
  }

  lemma KindsOfReply(env: TurnEnv)
    ensures var saved := [ReplyOf(env)] + (if ResultsOf(env) == [] then [] else [ToolResults(ResultsOf(env))]);
      RepliesIn(saved) == [ReplyOf(env)] && UserTextsIn(saved) == [] && ResultsIn(saved) == ResultsOf(env)
  {
    var results := if ResultsOf(env) == [] then [] else [ToolResults(ResultsOf(env))];
    KindsOfOne(ReplyOf(env));
    KindsOfOne(ToolResults(ResultsOf(env)));
    KindsAppend([ReplyOf(env)], results);
  }

  /** What a kept reply leaves, with the notes behind it. */
  function KeptLines(env: TurnEnv): Log {
    [ReplyOf(env)] + (if ResultsOf(env) == [] then [] else [ToolResults(ResultsOf(env))]) +
    if AsksForTools(env) then [] else UserLinesOf(env.notesAfter)
  }

  lemma KindsOfKept(env: TurnEnv)
    ensures RepliesIn(KeptLines(env)) == [ReplyOf(env)] && ResultsIn(KeptLines(env)) == ResultsOf(env)
    ensures UserTextsIn(KeptLines(env)) == if AsksForTools(env) then [] else env.notesAfter
  {
    hide AsksForTools, ReplyOf, ResultsOf, RepliesIn, UserTextsIn, ResultsIn, UserLinesOf;
    var saved := [ReplyOf(env)] + (if ResultsOf(env) == [] then [] else [ToolResults(ResultsOf(env))]);
    KindsOfReply(env);
    KindsOfNotes(env.notesAfter);
    KindsOfNothing();
    KindsAppend(saved, if AsksForTools(env) then [] else UserLinesOf(env.notesAfter));
    Empty(ResultsOf(env));
  }

  lemma KindsOfTurn(env: TurnEnv)
    ensures RepliesIn(TurnLines(env)) == KeptReply(env)
    ensures ResultsIn(TurnLines(env)) == KeptResultsOf(env)
    ensures UserTextsIn(TurnLines(env)) ==
            env.notesBefore + if Kept(env) && !AsksForTools(env) then env.notesAfter else []
  {
    hide Kept, AsksForTools, ReplyOf, ResultsOf, RepliesIn, UserTextsIn, ResultsIn, UserLinesOf;
    KindsOfNotes(env.notesBefore);
    KindsOfNothing();
    KindsOfKept(env);
    KindsAppend(UserLinesOf(env.notesBefore), if Kept(env) then KeptLines(env) else []);
    Empty(env.notesBefore);
  }

  lemma NoNotes()
    ensures UserLinesOf([]) == []
  {
  }

  lemma {:induction false} KindsOfTurns(turns: seq<TurnEnv>)
    ensures RepliesIn(TurnsLines(turns)) == KeptReplies(turns)
    ensures ResultsIn(TurnsLines(turns)) == KeptResults(turns)
    ensures UserTextsIn(TurnsLines(turns)) == NotesOf(turns)
  {
    if turns != [] {
      hide TurnLines, Kept, AsksForTools, ReplyOf, ResultsOf;
      KindsOfTurn(turns[0]);
      KindsOfTurns(turns[1..]);
      KindsAppend(TurnLines(turns[0]), TurnsLines(turns[1..]));
    }
  }

  lemma KeptAppend(a: seq<TurnEnv>, b: seq<TurnEnv>)
    ensures KeptReplies(a + b) == KeptReplies(a) + KeptReplies(b)
    ensures KeptResults(a + b) == KeptResults(a) + KeptResults(b)
  {
    ConcatSplit(KeptReply, a, b);
    ConcatSplit(KeptResultsOf, a, b);
  }

  lemma KindsOfPhase(env: PhaseEnv, maxTurns: nat)
    ensures var turns := Taken(env.turns, maxTurns);
      && RepliesIn(PhaseLines(env, maxTurns)) == KeptReplies(turns)
      && ResultsIn(PhaseLines(env, maxTurns)) == KeptResults(turns)
      && UserTextsIn(PhaseLines(env, maxTurns)) ==
         (if env.kind == Notify then env.notes else [env.input]) + NotesOf(turns)
  {
    hide TurnsLines, Taken, UserLinesOf, NotesOf, RepliesIn, ResultsIn, UserTextsIn, KeptReplies, KeptResults;
    var opening := if env.kind == Notify then UserLinesOf(env.notes) else [UserText(env.input)];
    KindsOfNotes(env.notes);
    KindsOfOne(UserText(env.input));
    KindsOfTurns(Taken(env.turns, maxTurns));
    KindsAppend(opening, TurnsLines(Taken(env.turns, maxTurns)));
  }

  lemma {:induction false} KindsOfRun(phases: seq<PhaseEnv>, maxTurns: nat)
    ensures RepliesIn(RunLines(phases, maxTurns)) == KeptReplies(TurnsOf(phases, maxTurns))
    ensures ResultsIn(RunLines(phases, maxTurns)) == KeptResults(TurnsOf(phases, maxTurns))
    ensures UserTextsIn(RunLines(phases, maxTurns)) == InputsAndNotes(phases, maxTurns)
  {
    hide PhaseLines, Taken, NotesOf, RepliesIn, ResultsIn, UserTextsIn, KeptReplies, KeptResults;
    if phases != [] {
      KindsOfPhase(phases[0], maxTurns);
      KindsOfRun(phases[1..], maxTurns);
      KindsAppend(PhaseLines(phases[0], maxTurns), RunLines(phases[1..], maxTurns));
      KeptAppend(Taken(phases[0].turns, maxTurns), TurnsOf(phases[1..], maxTurns));
    } else {
      NothingKept();
    }
  }

  lemma NothingKept()
    ensures RepliesIn([]) == KeptReplies([]) == [] && ResultsIn([]) == KeptResults([]) == [] && UserTextsIn([]) == []
  {
  }

  /**
   What a run adds to the conversation: the replies are exactly one for each turn taken that was
   requested, read to its end and not stopped by an error or an overrun, in order; the results are
   those of their calls, in order; the user texts are the inputs and the notes, in order.
   */
  lemma RunAdds(phases: seq<PhaseEnv>, maxTurns: nat)
    ensures var added, taken := RunWrites(phases, maxTurns), PhasesTaken(phases, maxTurns);
      && RepliesIn(added) == KeptReplies(TurnsOf(taken, maxTurns))
      && ResultsIn(added) == KeptResults(TurnsOf(taken, maxTurns))
      && UserTextsIn(added) == InputsAndNotes(taken, maxTurns)
  {
    RunIsTold(phases, maxTurns);
    KindsOfRun(PhasesTaken(phases, maxTurns), maxTurns);
  }
}
