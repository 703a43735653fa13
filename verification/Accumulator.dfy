/** The C client's two consumers of stream events. */
module Accumulator {
  // Both fold the events into an accumulator; the streaming one also shows text and errors
  // as they arrive. They treat a retry alike but for one field.

  import opened Options
  import opened TokenCounts
  import opened Sequences

  datatype Event =
    | Text(content: string)
    | Thinking(content: string)
    | ToolCallStart(id: string, name: string)
    | ToolInputDelta(delta: Option<string>)
    | ToolCall(callId: Option<string>, callName: Option<string>, input: Option<string>)
    | Usage(tokens: Tokens, startMs: int, endMs: int, speedReady: bool)
    | Stop(reason: Option<string>)
    | Error(message: Option<string>)
    | Retry

  datatype Tool = Tool(id: string, name: string, input: string)

  datatype Accum = Accum(
    text: string, thinking: string, calls: seq<Tool>, stopped: bool, stopReason: Option<string>,
    error: Option<string>, tokens: Tokens, speedReady: bool, startMs: int, endMs: int)

  const EMPTY := Accum("", "", [], false, None, None, NO_TOKENS, false, 0, 0)

  function Or(s: Option<string>, default_: string): string {
    if s.Some? then s.value else default_
  }

  function Count(t: Tokens, u: Tokens): Tokens {
    Tokens(Positive(u.input, t.input), Positive(u.output, t.output),
           Positive(u.cacheRead, t.cacheRead), Positive(u.cacheWrite, t.cacheWrite))
  }

  function Extend(calls: seq<Tool>, delta: Option<string>): seq<Tool> {
    if calls == [] || delta.None? then calls
    else
      var last := calls[|calls| - 1];
      calls[..|calls| - 1] + [last.(input := last.input + delta.value)]
  }

  /** One event; the streaming consumer clears the error on a retry, the other keeps it. */
  function Take(keepsError: bool, a: Accum, e: Event): Accum {
    match e
    case Text(content) => a.(text := a.text + content)
    case Thinking(content) => a.(thinking := a.thinking + content)
    case ToolCallStart(id, name) => a.(calls := a.calls + [Tool(id, name, "")])
    case ToolInputDelta(delta) => a.(calls := Extend(a.calls, delta))
    case ToolCall(id, name, input) => a.(calls := a.calls + [Tool(Or(id, ""), Or(name, ""), Or(input, "{}"))])
    case Usage(tokens, start, end, ready) =>
      a.(tokens := Count(a.tokens, tokens), startMs := start, endMs := end, speedReady := ready)
    case Stop(reason) => a.(stopped := true, stopReason := if reason.Some? then reason else a.stopReason)
    case Error(message) => a.(error := Some(Or(message, "unknown error")))
    case Retry => EMPTY.(error := if keepsError then a.error else None, startMs := a.startMs, endMs := a.endMs)
  }

  function Fold(keepsError: bool, a: Accum, events: seq<Event>): Accum {
    if events == [] then a
    else Take(keepsError, Fold(keepsError, a, events[..|events| - 1]), events[|events| - 1])
  }

  lemma {:induction false} FoldSplit(keepsError: bool, a: Accum, x: seq<Event>, y: seq<Event>)
    ensures Fold(keepsError, a, x + y) == Fold(keepsError, Fold(keepsError, a, x), y)
  {
    if y == [] {
      assert x + y == x;
    } else {
      assert (x + y)[..|x + y| - 1] == x + y[..|y| - 1];
      FoldSplit(keepsError, a, x, y[..|y| - 1]);
    }
  }

  predicate HasError(events: seq<Event>) {
    exists i :: 0 <= i < |events| && events[i].Error?
  }

  predicate HasUsage(events: seq<Event>) {
    exists i :: 0 <= i < |events| && events[i].Usage?
  }

  predicate Retries(events: seq<Event>) {
    exists i :: 0 <= i < |events| && events[i].Retry?
  }

  /** The same state but for a different error and other timestamps, where these are still the first ones. */
  function Marked(a: Accum, error: Option<string>, start: int, end: int, errorSet: bool, timeSet: bool): Accum {
    a.(error := if errorSet then a.error else error,
       startMs := if timeSet then a.startMs else start,
       endMs := if timeSet then a.endMs else end)
  }

  lemma TakeMarked(keepsError: bool, a: Accum, error: Option<string>, start: int, end: int,
                   errorSet: bool, timeSet: bool, e: Event)
    ensures Take(keepsError, Marked(a, error, start, end, errorSet, timeSet), e) ==
            Marked(Take(keepsError, a, e), error, start, end,
                   errorSet || e.Error? || (e.Retry? && !keepsError), timeSet || e.Usage?)
  {
    hide Extend, Count, Or;
  }

  /** Runs that start with different errors or timestamps differ in nothing else, and only until the first new one. */
  lemma {:induction false} FoldFrom(keepsError: bool, error: Option<string>, start: int, end: int, events: seq<Event>)
    ensures var errorSet := HasError(events) || (Retries(events) && !keepsError);
      Fold(keepsError, EMPTY.(error := error, startMs := start, endMs := end), events) ==
      Marked(Fold(keepsError, EMPTY, events), error, start, end, errorSet, HasUsage(events))
  {
    if events != [] {
      hide Take, Marked, HasError, Retries, HasUsage;
      var n := |events| - 1;
      var front := events[..n];
      FoldFrom(keepsError, error, start, end, front);
      SeenNext(front, events[n]);
      assert events == front + [events[n]];
      TakeMarked(keepsError, Fold(keepsError, EMPTY, front), error, start, end,
                 HasError(front) || (Retries(front) && !keepsError), HasUsage(front), events[n]);
    }
  }

  lemma SeenNext(events: seq<Event>, e: Event)
    ensures HasError(events + [e]) == (HasError(events) || e.Error?)
    ensures HasUsage(events + [e]) == (HasUsage(events) || e.Usage?)
    ensures Retries(events + [e]) == (Retries(events) || e.Retry?)
  {
    var all := events + [e];
    assert all[|events|] == e;
    assert forall i :: 0 <= i < |events| ==> all[i] == events[i];
  }

  lemma {:induction false} ErrorMeans(events: seq<Event>)
    ensures Fold(true, EMPTY, events).error == None <==> !HasError(events)
  {
    if events != [] {
      var n := |events| - 1;
      ErrorMeans(events[..n]);
      SeenNext(events[..n], events[n]);
      assert events == events[..n] + [events[n]];
    }
  }

  /** A retry makes the streaming consumer forget everything before it, but for the timestamps of the last usage. */
  lemma DisplayForgets(first: seq<Event>, second: seq<Event>)
    ensures var alone := Fold(false, EMPTY, second);
      var before := Fold(false, EMPTY, first);
      Fold(false, EMPTY, first + [Retry] + second) ==
      if HasUsage(second) then alone else alone.(startMs := before.startMs, endMs := before.endMs)
  {
    AfterRetry(false, first, second);
    NoUsageNoTimes(false, second);
    NoErrorNone(second);
  }

  lemma AfterRetry(keepsError: bool, first: seq<Event>, second: seq<Event>)
    ensures var before := Fold(keepsError, EMPTY, first);
      Fold(keepsError, EMPTY, first + [Retry] + second) ==
      Fold(keepsError, EMPTY.(error := if keepsError then before.error else None,
                              startMs := before.startMs, endMs := before.endMs), second)
    ensures var before := Fold(keepsError, EMPTY, first);
      var alone := Fold(keepsError, EMPTY, second);
      Fold(keepsError, EMPTY, first + [Retry] + second) ==
      alone.(error := if HasError(second) || (Retries(second) && !keepsError) then alone.error
                      else if keepsError then before.error else None,
             startMs := if HasUsage(second) then alone.startMs else before.startMs,
             endMs := if HasUsage(second) then alone.endMs else before.endMs)
  {
    var before := Fold(keepsError, EMPTY, first);
    FoldSplit(keepsError, EMPTY, first + [Retry], second);
    FoldSplit(keepsError, EMPTY, first, [Retry]);
    assert [Retry][..0] == [];
    assert Fold(keepsError, before, [Retry]) == Take(keepsError, before, Retry);
    FoldFrom(keepsError, if keepsError then before.error else None, before.startMs, before.endMs, second);
  }

  lemma {:induction false} NoUsageNoTimes(keepsError: bool, events: seq<Event>)
    ensures !HasUsage(events) ==>
              Fold(keepsError, EMPTY, events).startMs == 0 && Fold(keepsError, EMPTY, events).endMs == 0
  {
    if events != [] {
      var n := |events| - 1;
      NoUsageNoTimes(keepsError, events[..n]);
      SeenNext(events[..n], events[n]);
      assert events == events[..n] + [events[n]];
    }
  }

  lemma {:induction false} NoErrorNone(events: seq<Event>)
    ensures !HasError(events) ==> Fold(false, EMPTY, events).error == None
  {
    if events != [] {
      var n := |events| - 1;
      NoErrorNone(events[..n]);
      SeenNext(events[..n], events[n]);
      assert events == events[..n] + [events[n]];
    }
  }

  /**
   The other consumer forgets everything but the error: after a retry it reports what the
   second part alone would give exactly when that part has an error of its own or the
   first part had none.
   */
  lemma AccumForgetsIff(first: seq<Event>, second: seq<Event>)
    ensures var all := Fold(true, EMPTY, first + [Retry] + second);
      var alone := Fold(true, EMPTY, second);
      && all == alone.(error := all.error, startMs := all.startMs, endMs := all.endMs)
      && (all.error == alone.error <==> HasError(second) || !HasError(first))
  {
    AfterRetry(true, first, second);
    ErrorMeans(first);
    ErrorMeans(second);
  }

  // ---------------------------------------------------------------- what the fields hold

  function SinceRetry(events: seq<Event>): seq<Event> {
    if events == [] || events[|events| - 1].Retry? then []
    else SinceRetry(events[..|events| - 1]) + [events[|events| - 1]]
  }

  function TextOf(e: Event): string {
    if e.Text? then e.content else ""
  }

  function ThinkingOf(e: Event): string {
    if e.Thinking? then e.content else ""
  }

  predicate BeginsCall(e: Event) {
    e.ToolCallStart? || e.ToolCall?
  }

  function CallBegun(e: Event): Tool
    requires BeginsCall(e)
  {
    match e
    case ToolCallStart(id, name) => Tool(id, name, "")
    case ToolCall(id, name, input) => Tool(Or(id, ""), Or(name, ""), Or(input, "{}"))
  }

  /** The input pieces up to the next call. */
  function PiecesAhead(events: seq<Event>): string {
    if events == [] || BeginsCall(events[0]) then ""
    else (if events[0].ToolInputDelta? then Or(events[0].delta, "") else "") + PiecesAhead(events[1..])
  }

  /** Each call with the pieces behind it; pieces in front of the first call belong to none. */
  function CallsIn(events: seq<Event>): seq<Tool> {
    if events == [] then []
    else if BeginsCall(events[0]) then
      var call := CallBegun(events[0]);
      [call.(input := call.input + PiecesAhead(events[1..]))] + CallsIn(events[1..])
    else CallsIn(events[1..])
  }

  predicate Stops(events: seq<Event>) {
    exists i :: 0 <= i < |events| && events[i].Stop?
  }

  function ReasonOf(e: Event): Option<string> {
    if e.Stop? then e.reason else None
  }

  function ErrorOf(e: Event): Option<string> {
    if e.Error? then Some(Or(e.message, "unknown error")) else None
  }

  function Last<T>(stated: Event -> Option<T>, events: seq<Event>): Option<T> {
    if events == [] then None
    else if stated(events[|events| - 1]).Some? then stated(events[|events| - 1])
    else Last(stated, events[..|events| - 1])
  }

  datatype Timed = Timed(startMs: int, endMs: int, speedReady: bool)

  function UsageOf(e: Event): Option<Timed> {
    if e.Usage? then Some(Timed(e.startMs, e.endMs, e.speedReady)) else None
  }

  function Input(t: Tokens): int { t.input }

  function Output(t: Tokens): int { t.output }

  function CacheRead(t: Tokens): int { t.cacheRead }

  function CacheWrite(t: Tokens): int { t.cacheWrite }

  /** A count is stated by a usage in which it is positive. */
  function CountOf(field: Tokens -> int): Event -> Option<int> {
    (e: Event) => if e.Usage? && field(e.tokens) > 0 then Some(field(e.tokens)) else None
  }

  function LastCount(field: Tokens -> int, events: seq<Event>): int {
    var stated := Last(CountOf(field), events);
    if stated.Some? then stated.value else 0
  }

  /** What the accumulator holds, field by field, told from the events. */
  ghost predicate IsHeld(keepsError: bool, a: Accum, events: seq<Event>) {
    var since := SinceRetry(events);
    && a.text == Concat(TextOf, since)
    && a.thinking == Concat(ThinkingOf, since)
    && a.calls == CallsIn(since)
    && (a.stopped <==> Stops(since))
    && a.stopReason == Last(ReasonOf, since)
    && a.error == Last(ErrorOf, if keepsError then events else since)
    && a.tokens == Tokens(LastCount(Input, since), LastCount(Output, since),
                          LastCount(CacheRead, since), LastCount(CacheWrite, since))
    && a.speedReady == (Last(UsageOf, since).Some? && Last(UsageOf, since).value.speedReady)
    && (Last(UsageOf, events).None? ==> a.startMs == a.endMs == 0)
    && (Last(UsageOf, events).Some? ==>
          a.startMs == Last(UsageOf, events).value.startMs && a.endMs == Last(UsageOf, events).value.endMs)
  }

  lemma LastNext<T>(stated: Event -> Option<T>, events: seq<Event>, e: Event)
    ensures Last(stated, events + [e]) == if stated(e).Some? then stated(e) else Last(stated, events)
  {
    assert (events + [e])[..|events|] == events;
  }

  lemma SinceRetryNext(events: seq<Event>, e: Event)
    ensures SinceRetry(events + [e]) == if e.Retry? then [] else SinceRetry(events) + [e]
  {
    assert (events + [e])[..|events|] == events;
  }

  lemma StopsNext(events: seq<Event>, e: Event)
    ensures Stops(events + [e]) <==> Stops(events) || e.Stop?
  {
    var all := events + [e];
    assert all[|events|] == e;
    assert forall i :: 0 <= i < |events| ==> all[i] == events[i];
  }

  lemma {:induction false} PiecesNext(events: seq<Event>, e: Event)
    ensures PiecesAhead(events + [e]) ==
            PiecesAhead(events) +
            if e.ToolInputDelta? && CallsIn(events) == [] then Or(e.delta, "") else ""
  {
    var all := events + [e];
    if events == [] {
      assert all == [e] && [e][1..] == [];
    } else {
      assert all[1..] == events[1..] + [e] && all[0] == events[0];
      if !BeginsCall(events[0]) {
        PiecesNext(events[1..], e);
        Associate(if events[0].ToolInputDelta? then Or(events[0].delta, "") else "", PiecesAhead(events[1..]),
                  if e.ToolInputDelta? && CallsIn(events) == [] then Or(e.delta, "") else "");
      }
    }
  }

  /** One more event: a new call, or one more piece for the last one. */
  lemma {:induction false} CallsNext(events: seq<Event>, e: Event)
    ensures CallsIn(events + [e]) ==
            if BeginsCall(e) then CallsIn(events) + [CallBegun(e)]
            else if e.ToolInputDelta? then Extend(CallsIn(events), e.delta)
            else CallsIn(events)
  {
    var all := events + [e];
    if events == [] {
      assert all == [e] && [e][1..] == [];
      if BeginsCall(e) {
        Empty(CallBegun(e).input);
      }
    } else {
      assert all[1..] == events[1..] + [e] && all[0] == events[0];
      CallsNext(events[1..], e);
      if BeginsCall(events[0]) {
        PiecesNext(events[1..], e);
        FirstCallNext(CallBegun(events[0]), events[1..], e);
      }
    }
  }

  lemma FirstCallNext(first: Tool, rest: seq<Event>, e: Event)
    requires CallsIn(rest + [e]) ==
             if BeginsCall(e) then CallsIn(rest) + [CallBegun(e)]
             else if e.ToolInputDelta? then Extend(CallsIn(rest), e.delta)
             else CallsIn(rest)
    requires PiecesAhead(rest + [e]) ==
             PiecesAhead(rest) + if e.ToolInputDelta? && CallsIn(rest) == [] then Or(e.delta, "") else ""
    ensures var was := [first.(input := first.input + PiecesAhead(rest))] + CallsIn(rest);
      [first.(input := first.input + PiecesAhead(rest + [e]))] + CallsIn(rest + [e]) ==
      if BeginsCall(e) then was + [CallBegun(e)] else if e.ToolInputDelta? then Extend(was, e.delta) else was
  {
    hide CallsIn, PiecesAhead;
    var piece := if e.ToolInputDelta? && CallsIn(rest) == [] then Or(e.delta, "") else "";
    Associate(first.input, PiecesAhead(rest), piece);
    Empty(first.input + PiecesAhead(rest));
  }

  lemma HeldNext(keepsError: bool, a: Accum, events: seq<Event>, e: Event)
    requires IsHeld(keepsError, a, events) && !e.Retry?
    ensures IsHeld(keepsError, Take(keepsError, a, e), events + [e])
  {
    hide Concat, CallsIn, Stops, Last, SinceRetry, Extend, LastCount;
    var since := SinceRetry(events);
    SinceRetryNext(events, e);
    ConcatNext(TextOf, since, e);
    ConcatNext(ThinkingOf, since, e);
    Empty(Concat(TextOf, since));
    Empty(Concat(ThinkingOf, since));
    CallsNext(since, e);
    StopsNext(since, e);
    LastNext(ReasonOf, since, e);
    LastNext(ErrorOf, since, e);
    LastNext(ErrorOf, events, e);
    LastNext(UsageOf, since, e);
    LastNext(UsageOf, events, e);
    CountNext(Input, since, e);
    CountNext(Output, since, e);
    CountNext(CacheRead, since, e);
    CountNext(CacheWrite, since, e);
  }

  lemma CountNext(field: Tokens -> int, events: seq<Event>, e: Event)
    ensures LastCount(field, events + [e]) ==
            if e.Usage? then Positive(field(e.tokens), LastCount(field, events)) else LastCount(field, events)
  {
    LastNext(CountOf(field), events, e);
  }

  lemma RetryHeld(keepsError: bool, a: Accum, events: seq<Event>)
    requires IsHeld(keepsError, a, events)
    ensures IsHeld(keepsError, Take(keepsError, a, Retry), events + [Retry])
  {
    SinceRetryNext(events, Retry);
    LastNext(ErrorOf, events, Retry);
    LastNext(UsageOf, events, Retry);
  }

  /**
   What both consumers hold behind any stream: text, thinking, calls, stop and counts are those
   since the last retry; the error too for the streaming consumer, but for the other one the
   last error at all; the timestamps are those of the last usage at all.
   */
  lemma {:induction false} AccumHolds(keepsError: bool, events: seq<Event>)
    ensures IsHeld(keepsError, Fold(keepsError, EMPTY, events), events)
  {
    hide IsHeld, Take;
    if events == [] {
      NothingHeld(keepsError);
    } else {
      var front, last := events[..|events| - 1], events[|events| - 1];
      AccumHolds(keepsError, front);
      assert events == front + [last];
      if last.Retry? {
        RetryHeld(keepsError, Fold(keepsError, EMPTY, front), front);
      } else {
        HeldNext(keepsError, Fold(keepsError, EMPTY, front), front, last);
      }
    }
  }

  lemma NothingHeld(keepsError: bool)
    ensures IsHeld(keepsError, EMPTY, [])
  {
  }

  // ---------------------------------------------------------------- the accumulator as it is kept

  class SseAccumulator {
    var text: string
    var thinking: string
    var tools: array<Tool>
    var toolCount: nat
    var stopped: bool
    var stopReason: Option<string>
    var error: Option<string>
    var tokens: Tokens
    var speedReady: bool
    var startMs: int
    var endMs: int

    ghost predicate Valid()
      reads this
    {
      toolCount <= tools.Length && tools.Length > 0
    }

    function State(): Accum
      requires Valid()
      reads this, tools
    {
      Accum(text, thinking, tools[..toolCount], stopped, stopReason, error, tokens, speedReady, startMs, endMs)
    }

    constructor ()
      ensures Valid() && fresh(tools) && State() == EMPTY
    {
      text, thinking, toolCount, stopped, stopReason, error := "", "", 0, false, None, None;
      tokens, speedReady, startMs, endMs := NO_TOKENS, false, 0, 0;
      tools := new Tool[INITIAL_CAP](_ => Tool("", "", ""));
    }

    method AppendTool(tool: Tool)
      requires Valid()
      modifies `tools, `toolCount, tools
      ensures Valid() && (tools == old(tools) || fresh(tools))
      ensures State() == old(State()).(calls := old(State()).calls + [tool])
    {
      if toolCount >= tools.Length {
        var bigger := new Tool[2 * tools.Length](_ => tool);
        for i := 0 to toolCount
          modifies bigger
          invariant bigger[..i] == tools[..i]
        {
          bigger[i] := tools[i];
        }
        tools := bigger;
      }
      tools[toolCount] := tool;
      toolCount := toolCount + 1;
    }

    method AppendInput(delta: Option<string>)
      requires Valid()
      modifies tools
      ensures Valid() && State() == old(State()).(calls := Extend(old(State()).calls, delta))
    {
      if toolCount > 0 && delta.Some? {
        var last := tools[toolCount - 1];
        tools[toolCount - 1] := last.(input := last.input + delta.value);
      }
    }

    method Accumulate(e: Event)
      requires Valid() && !e.Retry?
      modifies this, tools
      ensures Valid() && (tools == old(tools) || fresh(tools))
      ensures State() == Take(false, old(State()), e) == Take(true, old(State()), e)
    {
      hide Or, Count, Extend;
      match e {
        case Text(content) => text := text + content;
        case Thinking(content) => thinking := thinking + content;
        case ToolCallStart(id, name) => AppendTool(Tool(id, name, ""));
        case ToolInputDelta(delta) => AppendInput(delta);
        case ToolCall(id, name, input) => AppendTool(Tool(Or(id, ""), Or(name, ""), Or(input, "{}")));
        case Usage(used, start, end, ready) =>
          tokens := Count(tokens, used);
          startMs, endMs, speedReady := start, end, ready;
        case Stop(reason) =>
          stopped := true;
          if reason.Some? {
            stopReason := reason;
          }
        case Error(message) => error := Some(Or(message, "unknown error"));
      }
    }

    method Clear()
      requires Valid()
      modifies this
      ensures Valid() && tools == old(tools) && State() == Take(true, old(State()), Retry)
    {
      text, thinking, toolCount, stopped, speedReady, stopReason := "", "", 0, false, false, None;
      tokens := NO_TOKENS;
    }

    /** sse_accum_callback. */
    method AccumCallback(e: Event)
      requires Valid()
      modifies this, tools
      ensures Valid() && (tools == old(tools) || fresh(tools))
      ensures State() == Take(true, old(State()), e)
    {
      if e.Retry? {
        Clear();
      } else {
        Accumulate(e);
      }
    }

    /** stream_display_callback; `shown` is what it pushes to the display queue. */
    method DisplayCallback(e: Event) returns (shown: seq<string>)
      requires Valid()
      modifies this, tools
      ensures Valid() && (tools == old(tools) || fresh(tools))
      ensures State() == Take(false, old(State()), e)
      ensures shown == if e.Text? || e.Thinking? then [e.content]
                       else if e.Error? then [Or(e.message, "unknown error")] else []
    {
      shown := [];
      if e.Retry? {
        Clear();
        error := None;
      } else {
        Accumulate(e);
        if e.Text? || e.Thinking? {
          shown := [e.content];
        } else if e.Error? {
          shown := [error.value];
        }
      }
    }
  }

  const INITIAL_CAP: nat := 8

  /** A stream into sse_accum_callback: what the summary and goal calls read from the accumulator. */
  method AccumAll(events: seq<Event>) returns (acc: SseAccumulator)
    ensures fresh(acc) && acc.Valid() && acc.State() == Fold(true, EMPTY, events)
  {
    acc := new SseAccumulator();
    for i := 0 to |events|
      invariant fresh(acc) && acc.Valid() && fresh(acc.tools) && acc.State() == Fold(true, EMPTY, events[..i])
    {
      assert events[..i + 1][..i] == events[..i];
      acc.AccumCallback(events[i]);
    }
    assert events[..|events|] == events;
  }

  /** A stream into stream_display_callback: what the agent's turn reads from the accumulator. */
  method DisplayAll(events: seq<Event>) returns (acc: SseAccumulator)
    ensures fresh(acc) && acc.Valid() && acc.State() == Fold(false, EMPTY, events)
  {
    acc := new SseAccumulator();
    for i := 0 to |events|
      invariant fresh(acc) && acc.Valid() && fresh(acc.tools) && acc.State() == Fold(false, EMPTY, events[..i])
    {
      assert events[..i + 1][..i] == events[..i];
      var shown := acc.DisplayCallback(events[i]);
    }
    assert events[..|events|] == events;
  }
}
