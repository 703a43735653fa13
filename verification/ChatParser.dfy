/** The Rust client's parser of a chat completions stream, line by line, and the calls that it emits. */
module ChatParser {
  import opened Options
  import opened ToolReassembly

  // It reads line by line, keeps usage and stop until the stream has ended, and gives up at a
  // payload that is not JSON or a tool call that cannot be built. What it does is compared with
  // the Go client only through the calls: both flush the pieces of ToolReassembly.

  datatype Event =
    | Text(text: string)
    | Thinking(text: string)
    | CallEvent(call: Call)
    | Usage(input: int, output: int, cacheRead: int)
    | Stop(reason: string)
    | Error(message: string)
    | Retry

  /** The fields the code reads of one payload; None where they are missing or of another type. */
  datatype Body = Body(
    error: Option<string>, completion: Option<int>, cached: Option<int>, prompt: Option<int>,
    finish: Option<string>, content: Option<string>, reasoning: Option<string>, deltas: seq<Delta>)

  /** `Data(None)` is a payload that does not decode. */
  datatype Line = Skipped | RetryLine | Done | Data(body: Option<Body>)

  datatype Counts = Counts(input: int, output: int, cacheRead: int)

  datatype State = State(
    stopReason: string, counts: Counts, sawText: bool, calls: Pending,
    usage: Option<Counts>, stop: Option<string>)

  const START := State("", Counts(0, 0, 0), false, map[], None, None)

  /** The state and events after some lines, and whether the parser has given up. */
  datatype Output = Output(state: State, events: seq<Event>, failed: bool)

  const INTERRUPTED := "Stream interrupted (no message_stop received)"

  // ---------------------------------------------------------------- one line

  function Counted(c: Counts, b: Body): Counts {
    var cacheRead := if b.cached.Some? then b.cached.value else c.cacheRead;
    Counts(if b.prompt.None? then c.input
           else if cacheRead > 0 then b.prompt.value - cacheRead else b.prompt.value,
           if b.completion.Some? then b.completion.value else c.output,
           cacheRead)
  }

  function TrimStart(text: string): string {
    if text != "" && (text[0] == '\n' || text[0] == '\r') then TrimStart(text[1..]) else text
  }

  function TextOf(s: State, b: Body): string {
    if b.content.None? then "" else if s.sawText then b.content.value else TrimStart(b.content.value)
  }

  function Spoken(s: State, b: Body): seq<Event> {
    (if TextOf(s, b) != "" then [Text(TextOf(s, b))] else []) +
    if b.reasoning.Some? && b.reasoning.value != "" then [Thinking(b.reasoning.value)] else []
  }

  /** The calls of a flush up to the first that cannot be built, and whether there is such a one. */
  function Built(slots: seq<Slot>, builds: Call -> bool): (r: (seq<Event>, bool))
    ensures forall i :: 0 <= i < |r.0| ==> r.0[i].CallEvent?
    ensures |r.0| <= |slots|
  {
    if slots == [] then ([], true)
    else
      var (before, ok) := Built(slots[..|slots| - 1], builds);
      var last := slots[|slots| - 1].call;
      if !ok || !builds(last) then (before, false) else (before + [CallEvent(last)], true)
  }

  ghost function DataStep(s: State, b: Body, builds: Call -> bool): Output {
    if b.error.Some? then Output(s, [Error(b.error.value)], false)
    else
      var calls := AddAll(s.calls, b.deltas);
      var s' := s.(counts := Counted(s.counts, b),
                   stopReason := if b.finish.Some? && b.finish.value != "" && b.finish.value != "null"
                                 then b.finish.value else s.stopReason,
                   sawText := s.sawText || TextOf(s, b) != "", calls := calls);
      if b.finish == Some("tool_calls") then
        var (events, ok) := Built(Flush(calls), builds);
        Output(s'.(calls := Cleared(calls)), Spoken(s, b) + events, !ok)
      else Output(s', Spoken(s, b), false)
  }

  ghost function DoneStep(s: State, builds: Call -> bool): Output {
    var (events, ok) := Built(Flush(s.calls), builds);
    var reason := if s.stopReason == "" then "done" else s.stopReason;
    Output(s.(calls := Cleared(s.calls), stopReason := reason, usage := Some(s.counts), stop := Some(reason)),
           events, !ok)
  }

  ghost function Step(s: State, line: Line, builds: Call -> bool): Output {
    match line
    case Skipped => Output(s, [], false)
    case RetryLine => Output(START, [Retry], false)
    case Done => DoneStep(s, builds)
    case Data(None) => Output(s, [], true)
    case Data(Some(b)) => DataStep(s, b, builds)
  }

  ghost function Run(s: State, lines: seq<Line>, builds: Call -> bool): Output {
    if lines == [] then Output(s, [], false)
    else
      var before := Run(s, lines[..|lines| - 1], builds);
      if before.failed then before
      else
        var o := Step(before.state, lines[|lines| - 1], builds);
        Output(o.state, before.events + o.events, o.failed)
  }

  function Closing(s: State): seq<Event> {
    (if s.usage.Some? then [Usage(s.usage.value.input, s.usage.value.output, s.usage.value.cacheRead)] else []) +
    if s.stop.Some? then [Stop(s.stop.value)] else [Error(INTERRUPTED), Stop("error")]
  }

  /** The parser gives up at a line, or because the reader fails behind the lines it delivered. */
  ghost predicate GivesUp(lines: seq<Line>, readFails: bool, builds: Call -> bool) {
    Run(START, lines, builds).failed || readFails
  }

  /** Everything a stream emits; no closing events when the parser gave up. */
  ghost function Parsed(lines: seq<Line>, readFails: bool, builds: Call -> bool): seq<Event> {
    var o := Run(START, lines, builds);
    o.events + if GivesUp(lines, readFails, builds) then [] else Closing(o.state)
  }

  // ---------------------------------------------------------------- runs in pieces

  lemma RunNext(s: State, lines: seq<Line>, line: Line, builds: Call -> bool)
    ensures var before := Run(s, lines, builds);
      Run(s, lines + [line], builds) ==
      if before.failed then before
      else
        var o := Step(before.state, line, builds);
        Output(o.state, before.events + o.events, o.failed)
  {
    hide Step;
    assert (lines + [line])[..|lines|] == lines;
  }

  lemma {:induction false} RunSplit(s: State, a: seq<Line>, b: seq<Line>, builds: Call -> bool)
    ensures var first := Run(s, a, builds);
      Run(s, a + b, builds) ==
      if first.failed then first
      else
        var rest := Run(first.state, b, builds);
        Output(rest.state, first.events + rest.events, rest.failed)
    decreases |b|
  {
    hide Step;
    var first := Run(s, a, builds);
    if b == [] {
      assert a + b == a;
    } else {
      var front, last := b[..|b| - 1], b[|b| - 1];
      RunSplit(s, a, front, builds);
      assert a + b == (a + front) + [last] && b == front + [last];
      RunNext(s, a + front, last, builds);
      RunNext(first.state, front, last, builds);
    }
  }

  // ---------------------------------------------------------------- one stop, last

  predicate Open(events: seq<Event>) {
    forall i :: 0 <= i < |events| ==> !events[i].Stop? && !events[i].Usage?
  }

  /** Usage and stop are kept together. */
  predicate Settled(s: State) {
    s.usage.Some? == s.stop.Some?
  }

  lemma StepIsOpen(s: State, line: Line, builds: Call -> bool)
    requires Settled(s)
    ensures Open(Step(s, line, builds).events) && Settled(Step(s, line, builds).state)
    ensures line.RetryLine? ==> Step(s, line, builds).state.stop == None
    ensures line.Done? ==> Step(s, line, builds).state.stop.Some?
    ensures !line.RetryLine? && !line.Done? ==> Step(s, line, builds).state.stop == s.stop
  {
    hide Flush, AddAll, Cleared, TrimStart;
  }

  /** Some [DONE] was not followed by a retry. */
  predicate DoneSinceRetry(lines: seq<Line>) {
    exists i :: 0 <= i < |lines| && lines[i].Done? && forall j :: i < j < |lines| ==> !lines[j].RetryLine?
  }

  lemma DoneNext(lines: seq<Line>, line: Line)
    ensures DoneSinceRetry(lines + [line]) == (line.Done? || (!line.RetryLine? && DoneSinceRetry(lines)))
  {
    var all := lines + [line];
    assert all[|lines|] == line;
    if line.Done? {
      assert DoneSinceRetry(all);
    } else if DoneSinceRetry(all) {
      var i :| 0 <= i < |all| && all[i].Done? && forall j :: i < j < |all| ==> !all[j].RetryLine?;
      assert lines[i].Done? && forall j :: i < j < |lines| ==> lines[j] == all[j];
    }
    if !line.RetryLine? && DoneSinceRetry(lines) {
      var i :| 0 <= i < |lines| && lines[i].Done? && forall j :: i < j < |lines| ==> !lines[j].RetryLine?;
      assert all[i].Done?;
    }
  }

  lemma {:induction false} RunIsOpen(lines: seq<Line>, builds: Call -> bool)
    ensures var o := Run(START, lines, builds);
      Open(o.events) && Settled(o.state) && (!o.failed ==> (o.state.stop.Some? <==> DoneSinceRetry(lines)))
  {
    hide Step;
    if lines != [] {
      var front, last := lines[..|lines| - 1], lines[|lines| - 1];
      RunIsOpen(front, builds);
      assert lines == front + [last];
      RunNext(START, front, last, builds);
      StepIsOpen(Run(START, front, builds).state, last, builds);
      DoneNext(front, last);
    }
  }

  /**
   A stream that the parser reads to its end gives exactly one stop, last. It comes right
   after the usage when [DONE] was seen since the last retry, and is an error after an
   error message otherwise. A stream that it gives up gives neither stop nor usage.
   */
  lemma StopIsLast(lines: seq<Line>, readFails: bool, builds: Call -> bool)
    ensures var out := Parsed(lines, readFails, builds);
      if GivesUp(lines, readFails, builds) then Open(out)
      else
        && |out| >= 2 && out[|out| - 1].Stop?
        && Open(out[..|out| - 2])
        && (DoneSinceRetry(lines) ==> out[|out| - 2].Usage?)
        && (!DoneSinceRetry(lines) ==> out[|out| - 2] == Error(INTERRUPTED) && out[|out| - 1] == Stop("error"))
  {
    hide Run;
    RunIsOpen(lines, builds);
    var o := Run(START, lines, builds);
    if !GivesUp(lines, readFails, builds) {
      assert (o.events + Closing(o.state))[..|o.events|] == o.events;
    }
  }

  /** After a retry nothing is left of what came before, the stop reason included. */
  lemma RetryForgets(first: seq<Line>, second: seq<Line>, readFails: bool, builds: Call -> bool)
    requires !Run(START, first, builds).failed
    ensures Parsed(first + [RetryLine] + second, readFails, builds) ==
            Run(START, first, builds).events + [Retry] + Parsed(second, readFails, builds)
  {
    hide Run;
    RunSplit(START, first + [RetryLine], second, builds);
    RunNext(START, first, RetryLine, builds);
  }

  // ---------------------------------------------------------------- tool calls

  /** The calls after the last retry. */
  function CallsOf(events: seq<Event>): seq<Call> {
    if events == [] then []
    else
      var last := events[|events| - 1];
      if last.Retry? then []
      else CallsOf(events[..|events| - 1]) + if last.CallEvent? then [last.call] else []
  }

  predicate NoRetry(events: seq<Event>) {
    forall i :: 0 <= i < |events| ==> !events[i].Retry?
  }

  lemma {:induction false} CallsSplit(a: seq<Event>, b: seq<Event>)
    requires NoRetry(b)
    ensures CallsOf(a + b) == CallsOf(a) + CallsOf(b)
  {
    if b == [] {
      assert a + b == a;
    } else {
      assert (a + b)[..|a + b| - 1] == a + b[..|b| - 1];
      CallsSplit(a, b[..|b| - 1]);
    }
  }

  predicate AllBuild(slots: seq<Slot>, builds: Call -> bool) {
    forall i :: 0 <= i < |slots| ==> builds(slots[i].call)
  }

  lemma BuiltNext(slots: seq<Slot>, last: Slot, builds: Call -> bool)
    ensures AllBuild(slots + [last], builds) <==> AllBuild(slots, builds) && builds(last.call)
    ensures Calls(slots + [last]) == Calls(slots) + [last.call]
  {
    var all := slots + [last];
    assert all[|slots|] == last && forall i :: 0 <= i < |slots| ==> all[i] == slots[i];
  }

  lemma CallsNext(events: seq<Event>, call: Call)
    ensures CallsOf(events + [CallEvent(call)]) == CallsOf(events) + [call]
  {
    assert (events + [CallEvent(call)])[..|events|] == events;
  }

  /** Building succeeds for all or stops at the first that cannot be built. */
  lemma {:induction false} BuiltMeans(slots: seq<Slot>, builds: Call -> bool)
    ensures Built(slots, builds).1 <==> AllBuild(slots, builds)
    ensures CallsOf(Built(slots, builds).0) <= Calls(slots)
    ensures Built(slots, builds).1 ==> CallsOf(Built(slots, builds).0) == Calls(slots)
  {
    if slots != [] {
      hide AllBuild, Calls, CallsOf;
      var front, last := slots[..|slots| - 1], slots[|slots| - 1];
      BuiltMeans(front, builds);
      assert slots == front + [last];
      BuiltNext(front, last, builds);
      CallsNext(Built(front, builds).0, last.call);
    }
  }

  lemma SpokenHasNoCalls(s: State, b: Body)
    ensures CallsOf(Spoken(s, b)) == [] && NoRetry(Spoken(s, b))
  {
    var text := if TextOf(s, b) != "" then [Text(TextOf(s, b))] else [];
    var thinking := if b.reasoning.Some? && b.reasoning.value != "" then [Thinking(b.reasoning.value)] else [];
    CallsSplit(text, thinking);
    assert text != [] ==> text[..0] == [];
    assert thinking != [] ==> thinking[..0] == [];
  }

  /** What a line means for the calls: blank lines, errors and undecodable payloads mean nothing. */
  function MarkOf(line: Line): Mark {
    match line
    case Done => Mark([], true)
    case Data(Some(b)) => if b.error.Some? then Mark([], false) else Mark(b.deltas, b.finish == Some("tool_calls"))
    case _ => Mark([], false)
  }

  function Marks(lines: seq<Line>): seq<Mark> {
    seq(|lines|, i requires 0 <= i < |lines| => MarkOf(lines[i]))
  }

  predicate Undecodable(lines: seq<Line>) {
    exists i :: 0 <= i < |lines| && lines[i] == Data(None)
  }

  lemma DataCalls(s: State, b: Body, builds: Call -> bool)
    requires b.error.None?
    ensures var o := DataStep(s, b, builds);
      var calls := AddAll(s.calls, b.deltas);
      NoRetry(o.events) &&
      if b.finish == Some("tool_calls") then
        && o.failed == !AllBuild(Flush(calls), builds)
        && CallsOf(o.events) <= Calls(Flush(calls))
        && (!o.failed ==> CallsOf(o.events) == Calls(Flush(calls)) && o.state.calls == Cleared(calls))
      else !o.failed && CallsOf(o.events) == [] && o.state.calls == calls
  {
    hide Flush, AddAll, Spoken, Built, CallsOf, Cleared, AllBuild, Calls;
    var slots := Flush(AddAll(s.calls, b.deltas));
    SpokenHasNoCalls(s, b);
    BuiltMeans(slots, builds);
    CallsSplit(Spoken(s, b), Built(slots, builds).0);
  }

  lemma ErrorStep(s: State, b: Body, builds: Call -> bool)
    requires b.error.Some?
    ensures DataStep(s, b, builds) == Output(s, [Error(b.error.value)], false)
  {
  }

  lemma LineCalls(s: State, line: Line, builds: Call -> bool)
    requires !line.RetryLine?
    ensures var o, mark := Step(s, line, builds), MarkOf(line);
      var calls := AddAll(s.calls, mark.deltas);
      && NoRetry(o.events)
      && (o.failed <==> line == Data(None) || (mark.flushes && !AllBuild(Flush(calls), builds)))
      && CallsOf(o.events) <= (if mark.flushes then Calls(Flush(calls)) else [])
      && (!o.failed ==>
            && CallsOf(o.events) == (if mark.flushes then Calls(Flush(calls)) else [])
            && o.state.calls == if mark.flushes then Cleared(calls) else calls)
  {
    hide Flush, Built, Cleared, AllBuild, Calls, DataStep;
    assert AddAll(s.calls, []) == s.calls;
    match line
    case Done => BuiltMeans(Flush(s.calls), builds);
    case Data(Some(b)) =>
      if b.error.None? {
        DataCalls(s, b, builds);
      } else {
        assert [Error(b.error.value)][..0] == [];
        ErrorStep(s, b, builds);
      }
    case _ =>
  }

  /** What a run over these lines has emitted and still holds, by segments; nothing more once it has given up. */
  ghost predicate EmitsSegments(o: Output, undecodable: bool, segments: seq<seq<Delta>>, builds: Call -> bool)
    requires segments != []
  {
    var n := |segments| - 1;
    var slots := FlushOn(segments[..n]);
    && (o.failed <==> undecodable || !AllBuild(slots, builds))
    && CallsOf(o.events) <= Calls(slots)
    && (!o.failed ==> CallsOf(o.events) == Calls(slots) && o.state.calls == LateMap(Flat(segments[..n]), segments[n]))
  }

  lemma NextSegment(segments: seq<seq<Delta>>, mark: Mark)
    requires segments != []
    ensures var n := |segments| - 1;
      var grown := Extended(segments, mark.deltas);
      var after := if mark.flushes then grown + [[]] else grown;
      var m := |after| - 1;
      var calls := AddAll(LateMap(Flat(segments[..n]), segments[n]), mark.deltas);
      && FlushOn(after[..m]) == FlushOn(segments[..n]) + (if mark.flushes then Flush(calls) else [])
      && LateMap(Flat(after[..m]), after[m]) == if mark.flushes then Cleared(calls) else calls
  {
    hide Flush, FlushOn, LateMap, Cleared, Flat, AddAll;
    var n := |segments| - 1;
    var before, open := Flat(segments[..n]), segments[n] + mark.deltas;
    var grown := Extended(segments, mark.deltas);
    LateDeltas(before, segments[n]);
    LateDeltas(before, open);
    AddAllSplit(Cleared(AddAll(map[], before)), segments[n], mark.deltas);
    FlushOnNext(segments[..n], open);
    FlatNext(segments[..n], open);
    ClearedLate(before, open);
    LateDeltas(before + open, []);
    AddNone(Cleared(AddAll(map[], before + open)));
    assert (grown + [[]])[..|grown|] == grown == segments[..n] + [open] && grown[..n] == segments[..n];
  }

  lemma AddNone(pending: Pending)
    ensures AddAll(pending, []) == pending
  {
  }

  lemma CallsAppend(a: seq<Slot>, b: seq<Slot>, builds: Call -> bool)
    ensures Calls(a + b) == Calls(a) + Calls(b)
    ensures AllBuild(a + b, builds) <==> AllBuild(a, builds) && AllBuild(b, builds)
  {
    if AllBuild(a + b, builds) {
      forall i | 0 <= i < |a| ensures builds(a[i].call) { assert (a + b)[i] == a[i]; }
      forall i | 0 <= i < |b| ensures builds(b[i].call) { assert (a + b)[|a| + i] == b[i]; }
    }
  }

  lemma EmitsNext(before: Output, undecodable: bool, line: Line, segments: seq<seq<Delta>>, builds: Call -> bool)
    requires segments != [] && EmitsSegments(before, undecodable, segments, builds) && !line.RetryLine?
    ensures var grown := Extended(segments, MarkOf(line).deltas);
      var o := Step(before.state, line, builds);
      EmitsSegments(if before.failed then before else Output(o.state, before.events + o.events, o.failed),
                    undecodable || line == Data(None),
                    if MarkOf(line).flushes then grown + [[]] else grown, builds)
  {
    hide Flush, FlushOn, LateMap, Cleared, Flat, AddAll, Step, CallsOf, Calls, AllBuild;
    var n := |segments| - 1;
    NextSegment(segments, MarkOf(line));
    CallsAppend(FlushOn(segments[..n]), [], builds);
    if before.failed {
      CallsAppend(FlushOn(segments[..n]), Flush(AddAll(LateMap(Flat(segments[..n]), segments[n]), MarkOf(line).deltas)), builds);
    } else {
      LineCalls(before.state, line, builds);
      CallsSplit(before.events, Step(before.state, line, builds).events);
      CallsAppend(FlushOn(segments[..n]), Flush(AddAll(before.state.calls, MarkOf(line).deltas)), builds);
    }
  }

  /** What the lines of one part emit when they are read to their end. */
  ghost function PartSlots(part: seq<Line>): seq<Slot> {
    var segments := Segments(Marks(part));
    FlushOn(segments[..|segments| - 1])
  }

  /** A payload does not decode, or a call to emit cannot be built. */
  ghost predicate PartFails(part: seq<Line>, builds: Call -> bool) {
    Undecodable(part) || !AllBuild(PartSlots(part), builds)
  }

  /** The lines since the last retry that is read: a part that fails is the last one. */
  ghost function Reached(lines: seq<Line>, builds: Call -> bool): seq<Line> {
    if lines == [] then []
    else
      var before, last := Reached(lines[..|lines| - 1], builds), lines[|lines| - 1];
      if PartFails(before, builds) then before
      else if last.RetryLine? then []
      else before + [last]
  }

  ghost predicate Follows(o: Output, part: seq<Line>, builds: Call -> bool) {
    EmitsSegments(o, Undecodable(part), Segments(Marks(part)), builds)
  }

  lemma FailsAlike(o: Output, part: seq<Line>, builds: Call -> bool)
    requires Follows(o, part, builds)
    ensures o.failed <==> PartFails(part, builds)
    ensures CallsOf(o.events) <= Calls(PartSlots(part))
    ensures !o.failed ==> CallsOf(o.events) == Calls(PartSlots(part))
  {
    hide FlushOn, Segments, AllBuild, Calls, CallsOf;
  }

  lemma NothingEmitted(events: seq<Event>, builds: Call -> bool)
    requires CallsOf(events) == []
    ensures Follows(Output(START, events, false), [], builds)
  {
    FirstSegment([]);
    assert Marks([]) == [];
  }

  lemma FollowsLine(before: Output, part: seq<Line>, line: Line, builds: Call -> bool)
    requires Follows(before, part, builds) && !line.RetryLine? && !before.failed
    ensures var o := Step(before.state, line, builds);
      Follows(Output(o.state, before.events + o.events, o.failed), part + [line], builds)
  {
    hide EmitsSegments, Segments, Step;
    assert Marks(part + [line]) == Marks(part) + [MarkOf(line)];
    assert (part + [line])[|part|] == line;
    assert Undecodable(part + [line]) <==> Undecodable(part) || line == Data(None) by {
      if Undecodable(part) {
        var i :| 0 <= i < |part| && part[i] == Data(None);
        assert (part + [line])[i] == Data(None);
      }
    }
    SegmentsNext(Marks(part), MarkOf(line));
    EmitsNext(before, Undecodable(part), line, Segments(Marks(part)), builds);
  }

  lemma {:induction false} RunFollows(lines: seq<Line>, builds: Call -> bool)
    ensures Follows(Run(START, lines, builds), Reached(lines, builds), builds)
  {
    hide Follows, Step, PartFails;
    if lines == [] {
      NothingEmitted([], builds);
    } else {
      var front, last := lines[..|lines| - 1], lines[|lines| - 1];
      var before := Run(START, front, builds);
      RunFollows(front, builds);
      assert lines == front + [last];
      RunNext(START, front, last, builds);
      FailsAlike(before, Reached(front, builds), builds);
      if !before.failed && last.RetryLine? {
        RetryRead(before, builds);
      } else if !before.failed {
        FollowsLine(before, Reached(front, builds), last, builds);
      }
    }
  }

  lemma RetryRead(before: Output, builds: Call -> bool)
    ensures var o := Step(before.state, RetryLine, builds);
      Follows(Output(o.state, before.events + o.events, o.failed), [], builds)
  {
    NothingEmitted(before.events + [Retry], builds);
  }

  /**
   The tool calls of every stream, with any retries and also when the reader fails. The parser
   gives up exactly when the reader does or the part it has reached does not decode or build.
   Until then each segment of pieces of that part between two flushes gives its reassembled
   calls, under the identity known so far.
   */
  lemma StreamCalls(lines: seq<Line>, readFails: bool, builds: Call -> bool)
    ensures var part := Reached(lines, builds);
      var calls := CallsOf(Parsed(lines, readFails, builds));
      && (GivesUp(lines, readFails, builds) <==> readFails || PartFails(part, builds))
      && calls <= Calls(PartSlots(part))
      && (!PartFails(part, builds) ==> calls == Calls(PartSlots(part)))
  {
    hide Run, PartSlots, PartFails, Follows, Calls;
    RunFollows(lines, builds);
    var o := Run(START, lines, builds);
    FailsAlike(o, Reached(lines, builds), builds);
    var closing := if GivesUp(lines, readFails, builds) then [] else Closing(o.state);
    CallsSplit(o.events, closing);
    ClosingHasNoCalls(o.state);
  }

  /** A stretch of lines from the start of the stream or from behind a retry, with no retry in it. */
  predicate IsPart(lines: seq<Line>, i: nat, j: nat) {
    && i <= j <= |lines|
    && (i > 0 ==> lines[i - 1].RetryLine?)
    && forall k :: i <= k < j ==> !lines[k].RetryLine?
  }

  /** Some part does not decode or build. */
  ghost predicate SomePartFails(lines: seq<Line>, builds: Call -> bool) {
    exists i: nat, j: nat :: IsPart(lines, i, j) && PartFails(lines[i..j], builds)
  }

  lemma PartNext(front: seq<Line>, last: Line, i: nat, j: nat)
    requires IsPart(front, i, j)
    ensures IsPart(front + [last], i, j) && (front + [last])[i..j] == front[i..j]
    ensures last.RetryLine? ==> IsPart(front + [last], |front| + 1, |front| + 1)
    ensures !last.RetryLine? && j == |front| ==>
              IsPart(front + [last], i, j + 1) && (front + [last])[i..j + 1] == front[i..j] + [last]
  {
  }

  /** The part that is reached is one of the stream's, and its last one unless it fails. */
  lemma {:induction false} ReachedIsPart(lines: seq<Line>, builds: Call -> bool) returns (i: nat, j: nat)
    ensures IsPart(lines, i, j) && lines[i..j] == Reached(lines, builds)
    ensures !PartFails(Reached(lines, builds), builds) ==> j == |lines|
  {
    hide PartFails;
    i, j := 0, 0;
    if lines != [] {
      var front, last := lines[..|lines| - 1], lines[|lines| - 1];
      i, j := ReachedIsPart(front, builds);
      assert lines == front + [last];
      PartNext(front, last, i, j);
      if !PartFails(Reached(front, builds), builds) {
        i, j := if last.RetryLine? then |lines| else i, |lines|;
      }
    }
  }

  lemma NoLinesDoNotFail(builds: Call -> bool)
    ensures !PartFails([], builds)
  {
    assert Marks([]) == [];
  }

  lemma {:induction false} FailingPartIsReached(lines: seq<Line>, i: nat, j: nat, builds: Call -> bool)
    requires IsPart(lines, i, j) && PartFails(lines[i..j], builds)
    ensures PartFails(Reached(lines, builds), builds)
  {
    hide PartFails;
    NoLinesDoNotFail(builds);
    var front := lines[..|lines| - 1];
    if j < |lines| {
      assert front[i..j] == lines[i..j];
      FailingPartIsReached(front, i, j, builds);
    } else {
      assert i < j;
      var a, b := ReachedIsPart(lines, builds);
    }
  }

  /** When the parser gives up: exactly when the reader fails or some part between two retries does. */
  lemma GivesUpIff(lines: seq<Line>, readFails: bool, builds: Call -> bool)
    ensures GivesUp(lines, readFails, builds) <==> readFails || SomePartFails(lines, builds)
  {
    hide GivesUp, PartFails, PartSlots, Parsed, Calls, CallsOf, Reached;
    StreamCalls(lines, readFails, builds);
    var a, b := ReachedIsPart(lines, builds);
    if SomePartFails(lines, builds) {
      var i: nat, j: nat :| IsPart(lines, i, j) && PartFails(lines[i..j], builds);
      FailingPartIsReached(lines, i, j, builds);
    }
  }

  lemma ClosingHasNoCalls(s: State)
    ensures CallsOf(Closing(s)) == []
  {
    NoCalls(Closing(s));
  }

  lemma {:induction false} NoCalls(events: seq<Event>)
    requires forall i :: 0 <= i < |events| ==> !events[i].CallEvent?
    ensures CallsOf(events) == []
  {
    if events != [] { NoCalls(events[..|events| - 1]); }
  }

  /**
   When all pieces come before the first flush, each call is emitted once although the
   finishing payload and [DONE] both flush.
   */
  lemma CallsComeOnce(lines: seq<Line>, readFails: bool, builds: Call -> bool)
    requires var marks := Marks(Reached(lines, builds));
      Flushes(marks) > 0 && Segments(marks)[0] == AllDeltas(marks)
    requires !SomePartFails(lines, builds)
    ensures CallsOf(Parsed(lines, readFails, builds)) ==
            Calls(Flush(AddAll(map[], AllDeltas(Marks(Reached(lines, builds))))))
  {
    hide Segments, FlushOn, Parsed, Run, AddAll, Flush, AllDeltas, Marks, CallsOf, Calls, PartFails;
    var marks := Marks(Reached(lines, builds));
    var segments := Segments(marks);
    SegmentsHoldAll(marks);
    OthersAreEmpty(segments);
    StreamCalls(lines, readFails, builds);
    var i, j := ReachedIsPart(lines, builds);
    OnlyFirstSegment(segments[..|segments| - 1]);
  }

  // ---------------------------------------------------------------- the parser as it runs

  class Parser {
    var stopReason: string
    var counts: Counts
    var sawText: bool
    const calls: PendingCalls
    var usage: Option<Counts>
    var stop: Option<string>
    var events: seq<Event>

    ghost function Current(): State
      reads this, calls
    {
      State(stopReason, counts, sawText, calls.calls, usage, stop)
    }

    constructor ()
      ensures Current() == START && events == [] && fresh(calls)
    {
      stopReason, counts, sawText, usage, stop, events := "", Counts(0, 0, 0), false, None, None, [];
      calls := new PendingCalls();
    }

    /** emit_pending with the builder's verdicts; false when a call cannot be built. */
    method EmitPending(builds: Call -> bool) returns (ok: bool)
      modifies `events, calls
      ensures calls.calls == Cleared(old(calls.calls))
      ensures var r := Built(Flush(old(calls.calls)), builds); events == old(events) + r.0 && ok == r.1
    {
      hide Flush, Cleared;
      var slots := calls.EmitPending();
      ok := true;
      for i := 0 to |slots|
        invariant calls.calls == Cleared(old(calls.calls))
        invariant var r := Built(slots[..i], builds); events == old(events) + r.0 && ok == r.1
      {
        assert slots[..i + 1][..i] == slots[..i];
        if ok && builds(slots[i].call) {
          events := events + [CallEvent(slots[i].call)];
        } else {
          ok := false;
        }
      }
      assert slots[..|slots|] == slots;
    }

    method PushDeltas(deltas: seq<Delta>)
      modifies calls
      ensures calls.calls == AddAll(old(calls.calls), deltas)
    {
      PushAll(calls, deltas);
    }

    method Speak(b: Body)
      modifies `sawText, `events
      ensures events == old(events) + Spoken(old(Current()), b)
      ensures sawText == (old(sawText) || TextOf(old(Current()), b) != "")
    {
      if b.content.Some? {
        var c := b.content.value;
        if !sawText {
          c := TrimStart(c);
        }
        if c != "" {
          sawText := true;
          events := events + [Text(c)];
        }
      }
      if b.reasoning.Some? && b.reasoning.value != "" {
        events := events + [Thinking(b.reasoning.value)];
      }
    }

    method HandleData(b: Body, builds: Call -> bool) returns (ok: bool)
      modifies this, calls
      ensures var o := DataStep(old(Current()), b, builds);
        events == old(events) + o.events && ok == !o.failed && Current() == o.state
    {
      hide Flush, AddAll, Cleared, Spoken, TextOf, Built, Counted;
      if b.error.Some? {
        events := events + [Error(b.error.value)];
        return true;
      }
      counts := Counted(counts, b);
      if b.finish.Some? && b.finish.value != "" && b.finish.value != "null" {
        stopReason := b.finish.value;
      }
      SpeakSame(old(Current()), Current(), b);
      Speak(b);
      PushDeltas(b.deltas);
      ok := true;
      if b.finish == Some("tool_calls") {
        ok := EmitPending(builds);
      }
    }

    method HandleDone(builds: Call -> bool) returns (ok: bool)
      modifies this, calls
      ensures var o := DoneStep(old(Current()), builds);
        events == old(events) + o.events && ok == !o.failed && (ok ==> Current() == o.state)
    {
      hide Flush, Cleared, Built;
      ok := EmitPending(builds);
      if !ok {
        return;
      }
      if stopReason == "" {
        stopReason := "done";
      }
      usage := Some(counts);
      stop := Some(stopReason);
    }

    method Reset()
      modifies this, calls
      ensures Current() == START && events == old(events) + [Retry]
    {
      stopReason, counts, sawText, usage, stop := "", Counts(0, 0, 0), false, None, None;
      calls.calls := map[];
      events := events + [Retry];
    }

    method HandleLine(line: Line, builds: Call -> bool) returns (ok: bool)
      modifies this, calls
      ensures var o := Step(old(Current()), line, builds);
        events == old(events) + o.events && ok == !o.failed && (ok ==> Current() == o.state)
    {
      hide DataStep, DoneStep;
      match line
      case Skipped => ok := true;
      case RetryLine => Reset(); ok := true;
      case Done => ok := HandleDone(builds);
      case Data(body) =>
        if body.None? {
          ok := false;
        } else {
          ok := HandleData(body.value, builds);
        }
    }

    /** The whole loop; false when the parser gives up. */
    method Parse(lines: seq<Line>, readFails: bool, builds: Call -> bool) returns (ok: bool)
      requires Current() == START && events == []
      modifies this, calls
      ensures events == Parsed(lines, readFails, builds) && ok == !GivesUp(lines, readFails, builds)
    {
      hide Step;
      var i := 0;
      while i < |lines|
        invariant i <= |lines|
        invariant var o := Run(START, lines[..i], builds); !o.failed && events == o.events && Current() == o.state
      {
        assert lines[..i + 1] == lines[..i] + [lines[i]];
        RunNext(START, lines[..i], lines[i], builds);
        ok := HandleLine(lines[i], builds);
        if !ok {
          assert lines == lines[..i + 1] + lines[i + 1..];
          RunSplit(START, lines[..i + 1], lines[i + 1..], builds);
          return;
        }
        i := i + 1;
      }
      assert lines[..i] == lines;
      if readFails {
        return false;
      }
      if usage.Some? {
        events := events + [Usage(usage.value.input, usage.value.output, usage.value.cacheRead)];
      }
      if stop.Some? {
        events := events + [Stop(stop.value)];
      } else {
        events := events + [Error(INTERRUPTED)];
        events := events + [Stop("error")];
      }
      ok := true;
    }
  }

  lemma SpeakSame(s: State, t: State, b: Body)
    requires s.sawText == t.sawText
    ensures Spoken(s, b) == Spoken(t, b) && TextOf(s, b) == TextOf(t, b)
  {
  }
}
