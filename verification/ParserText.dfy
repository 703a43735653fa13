/** What the Rust client's parser says of a stream besides its calls. */
module ParserText {
  import opened Options
  import opened Sequences
  import opened ToolReassembly
  import opened ChatParser

  // ---------------------------------------------------------------- what the payloads say

  /** The payload of a line that is read for more than its error. */
  function BodyOf(line: Line): Option<Body> {
    if line.Data? && line.body.Some? && line.body.value.error.None? then line.body else None
  }

  function ContentOf(line: Line): string {
    if BodyOf(line).Some? && BodyOf(line).value.content.Some? then BodyOf(line).value.content.value else ""
  }

  function ReasoningOf(line: Line): string {
    if BodyOf(line).Some? && BodyOf(line).value.reasoning.Some? then BodyOf(line).value.reasoning.value else ""
  }

  function ErrorsOf(line: Line): seq<string> {
    if line.Data? && line.body.Some? && line.body.value.error.Some? then [line.body.value.error.value] else []
  }

  /** The count that a kind of line stated last, or zero. */
  function LastOf(stated: Line -> Option<int>, lines: seq<Line>): int {
    if lines == [] then 0
    else if stated(lines[|lines| - 1]).Some? then stated(lines[|lines| - 1]).value
    else LastOf(stated, lines[..|lines| - 1])
  }

  function CompletionOf(line: Line): Option<int> {
    if BodyOf(line).Some? then BodyOf(line).value.completion else None
  }

  function CachedOf(line: Line): Option<int> {
    if BodyOf(line).Some? then BodyOf(line).value.cached else None
  }

  function PromptOf(line: Line): Option<int> {
    if BodyOf(line).Some? then BodyOf(line).value.prompt else None
  }

  /** The last prompt, less the cached tokens that were known by its line. */
  function InputAt(lines: seq<Line>): int {
    if lines == [] then 0
    else if PromptOf(lines[|lines| - 1]).Some? then
      var cached := LastOf(CachedOf, lines);
      PromptOf(lines[|lines| - 1]).value - if cached > 0 then cached else 0
    else InputAt(lines[..|lines| - 1])
  }

  predicate IsReason(reason: string) {
    reason != "" && reason != "null"
  }

  function FinishOf(line: Line): string {
    if BodyOf(line).Some? && BodyOf(line).value.finish.Some? && IsReason(BodyOf(line).value.finish.value) then
      BodyOf(line).value.finish.value
    else ""
  }

  /** The finish reason stated last; [DONE] stands for one where none was stated. */
  function ReasonAt(lines: seq<Line>): string {
    if lines == [] then ""
    else
      var before, last := ReasonAt(lines[..|lines| - 1]), lines[|lines| - 1];
      if FinishOf(last) != "" then FinishOf(last)
      else if last.Done? && before == "" then "done"
      else before
  }

  /** The counts and the reason that hold at a [DONE]. */
  datatype End = End(input: int, output: int, cacheRead: int, reason: string)

  function EndAt(lines: seq<Line>): End {
    End(InputAt(lines), LastOf(CompletionOf, lines), LastOf(CachedOf, lines), ReasonAt(lines))
  }

  /** At the last [DONE]. */
  function LastEnd(lines: seq<Line>): Option<End> {
    if lines == [] then None
    else if lines[|lines| - 1].Done? then Some(EndAt(lines))
    else LastEnd(lines[..|lines| - 1])
  }

  // ---------------------------------------------------------------- what the events say

  /** What the events behind the last retry say. */
  datatype Voice = Voice(text: string, thinking: string, errors: seq<string>)

  const SILENCE := Voice("", "", [])

  function VoiceOf(events: seq<Event>): Voice {
    if events == [] then SILENCE
    else
      var before := VoiceOf(events[..|events| - 1]);
      match events[|events| - 1]
      case Text(text) => before.(text := before.text + text)
      case Thinking(text) => before.(thinking := before.thinking + text)
      case Error(message) => before.(errors := before.errors + [message])
      case Retry => SILENCE
      case _ => before
  }

  function Plus(a: Voice, b: Voice): Voice {
    Voice(a.text + b.text, a.thinking + b.thinking, a.errors + b.errors)
  }

  function Told(part: seq<Line>): Voice {
    Voice(TrimStart(Concat(ContentOf, part)), Concat(ReasoningOf, part), Concat(ErrorsOf, part))
  }

  lemma NothingMore(v: Voice)
    ensures Plus(v, SILENCE) == v && Plus(SILENCE, v) == v
  {
  }

  lemma VoiceNext(events: seq<Event>, e: Event)
    ensures VoiceOf(events + [e]) == if e.Retry? then SILENCE else Plus(VoiceOf(events), VoiceOf([e]))
  {
    assert (events + [e])[..|events|] == events;
    assert [e][..0] == [];
    NothingMore(VoiceOf(events));
  }

  lemma {:induction false} VoiceSplit(a: seq<Event>, b: seq<Event>)
    requires NoRetry(b)
    ensures VoiceOf(a + b) == Plus(VoiceOf(a), VoiceOf(b))
  {
    hide VoiceOf;
    if b == [] {
      VoiceOfNothing();
      NothingMore(VoiceOf(a));
      Empty(a);
    } else {
      var front, last := b[..|b| - 1], b[|b| - 1];
      LastApart(a, b);
      VoiceSplit(a, front);
      VoiceNext(a + front, last);
      VoiceNext(front, last);
      PlusAssociates(VoiceOf(a), VoiceOf(front), VoiceOf([last]));
    }
  }

  lemma VoiceOfNothing()
    ensures VoiceOf([]) == SILENCE
  {
  }

  lemma PlusAssociates(a: Voice, b: Voice, c: Voice)
    ensures Plus(Plus(a, b), c) == Plus(a, Plus(b, c))
  {
    Associate(a.text, b.text, c.text);
    Associate(a.thinking, b.thinking, c.thinking);
    Associate(a.errors, b.errors, c.errors);
  }

  // ---------------------------------------------------------------- trimming

  /** What is cut off is the longest beginning made of line breaks. */
  lemma {:induction false} TrimMeans(text: string) returns (n: nat)
    ensures n <= |text| && TrimStart(text) == text[n..]
    ensures forall i :: 0 <= i < n ==> text[i] == '\n' || text[i] == '\r'
    ensures n < |text| ==> text[n] != '\n' && text[n] != '\r'
  {
    n := 0;
    if text != "" && (text[0] == '\n' || text[0] == '\r') {
      var m := TrimMeans(text[1..]);
      n := m + 1;
      assert text[1..][m..] == text[n..];
      assert forall i :: 0 < i < n ==> text[i] == text[1..][i - 1];
    }
  }

  lemma {:induction false} TrimAppend(a: string, b: string)
    ensures TrimStart(a + b) == if TrimStart(a) == "" then TrimStart(b) else TrimStart(a) + b
  {
    if a == "" {
      assert a + b == b;
    } else if a[0] == '\n' || a[0] == '\r' {
      assert (a + b)[1..] == a[1..] + b;
      TrimAppend(a[1..], b);
    }
  }

  // ---------------------------------------------------------------- what the parser knows

  ghost predicate Knows(s: State, part: seq<Line>) {
    && (s.sawText <==> TrimStart(Concat(ContentOf, part)) != "")
    && s.counts == Counts(InputAt(part), LastOf(CompletionOf, part), LastOf(CachedOf, part))
    && s.stopReason == ReasonAt(part)
    && s.usage == (if LastEnd(part).Some? then
                     Some(Counts(LastEnd(part).value.input, LastEnd(part).value.output, LastEnd(part).value.cacheRead))
                   else None)
    && s.stop == (if LastEnd(part).Some? then Some(LastEnd(part).value.reason) else None)
  }

  ghost predicate Tells(o: Output, part: seq<Line>) {
    Knows(o.state, part) && VoiceOf(o.events) == Told(part)
  }

  lemma TellsNothing(events: seq<Event>)
    requires events == [] || events[|events| - 1].Retry?
    ensures Tells(Output(START, events, false), [])
  {
  }

  lemma ToldNext(part: seq<Line>, line: Line)
    ensures var was := TrimStart(Concat(ContentOf, part));
      Told(part + [line]) ==
      Plus(Told(part), Voice(if was == "" then TrimStart(ContentOf(line)) else ContentOf(line),
                             ReasoningOf(line), ErrorsOf(line)))
  {
    hide TrimStart, Concat, ContentOf, ReasoningOf, ErrorsOf;
    ConcatNext(ContentOf, part, line);
    ConcatNext(ReasoningOf, part, line);
    ConcatNext(ErrorsOf, part, line);
    TrimAppend(Concat(ContentOf, part), ContentOf(line));
    Empty(TrimStart(ContentOf(line)));
  }

  lemma CountsNext(part: seq<Line>, line: Line)
    ensures Counts(InputAt(part + [line]), LastOf(CompletionOf, part + [line]), LastOf(CachedOf, part + [line])) ==
            var c := Counts(InputAt(part), LastOf(CompletionOf, part), LastOf(CachedOf, part));
            if BodyOf(line).Some? then Counted(c, BodyOf(line).value) else c
  {
    assert (part + [line])[..|part|] == part;
  }

  lemma EndNext(part: seq<Line>, line: Line)
    ensures LastEnd(part + [line]) == if line.Done? then Some(EndAt(part + [line])) else LastEnd(part)
    ensures ReasonAt(part + [line]) ==
            if FinishOf(line) != "" then FinishOf(line)
            else if line.Done? && ReasonAt(part) == "" then "done"
            else ReasonAt(part)
  {
    hide EndAt;
    assert (part + [line])[..|part|] == part;
  }

  lemma CallsAreSilent(slots: seq<Slot>, builds: Call -> bool)
    ensures NoRetry(Built(slots, builds).0) && VoiceOf(Built(slots, builds).0) == SILENCE
  {
    CallsSayNothing(Built(slots, builds).0);
  }

  lemma {:induction false} CallsSayNothing(events: seq<Event>)
    requires forall i :: 0 <= i < |events| ==> events[i].CallEvent?
    ensures VoiceOf(events) == SILENCE
  {
    if events != [] { CallsSayNothing(events[..|events| - 1]); }
  }

  lemma SpokenSays(s: State, b: Body)
    ensures NoRetry(Spoken(s, b))
    ensures VoiceOf(Spoken(s, b)) ==
            Voice(TextOf(s, b), if b.reasoning.Some? then b.reasoning.value else "", [])
  {
    hide TextOf;
    var text := if TextOf(s, b) != "" then [Text(TextOf(s, b))] else [];
    var thinking := if b.reasoning.Some? && b.reasoning.value != "" then [Thinking(b.reasoning.value)] else [];
    assert forall e: Event :: [e][..0] == [];
    assert VoiceOf(text) == Voice(TextOf(s, b), "", []);
    VoiceSplit(text, thinking);
  }

  /** A payload that is read for more than its error. */
  lemma BodySays(s: State, part: seq<Line>, line: Line, builds: Call -> bool)
    requires Knows(s, part) && BodyOf(line).Some?
    ensures var o := Step(s, line, builds);
      && NoRetry(o.events) && Knows(o.state, part + [line])
      && Plus(Told(part), VoiceOf(o.events)) == Told(part + [line])
  {
    hide Built, Flush, AddAll, Cleared, Spoken, TrimStart, Concat, VoiceOf, Counted, LastEnd, ReasonAt, InputAt, LastOf;
    var b := BodyOf(line).value;
    var calls := AddAll(s.calls, b.deltas);
    SpokenSays(s, b);
    CallsAreSilent(Flush(calls), builds);
    VoiceSplit(Spoken(s, b), Built(Flush(calls), builds).0);
    NothingMore(VoiceOf(Spoken(s, b)));
    ToldNext(part, line);
    CountsNext(part, line);
    EndNext(part, line);
    TrimNothing();
  }

  lemma TrimNothing()
    ensures TrimStart("") == ""
  {
  }

  lemma DoneSays(s: State, part: seq<Line>, builds: Call -> bool)
    requires Knows(s, part)
    ensures var o := Step(s, Done, builds);
      && NoRetry(o.events) && Knows(o.state, part + [Done])
      && Plus(Told(part), VoiceOf(o.events)) == Told(part + [Done])
  {
    hide Built, Flush, Cleared, TrimStart, Concat, VoiceOf, LastEnd, ReasonAt, InputAt, LastOf;
    CallsAreSilent(Flush(s.calls), builds);
    ToldNext(part, Done);
    CountsNext(part, Done);
    EndNext(part, Done);
    TrimNothing();
  }

  /** Blank lines, errors, and payloads that do not decode leave the state as it is. */
  lemma OtherKeeps(s: State, part: seq<Line>, line: Line)
    requires Knows(s, part) && BodyOf(line).None? && !line.Done? && !line.RetryLine?
    ensures Knows(s, part + [line])
    ensures Told(part + [line]) == Plus(Told(part), Voice("", "", ErrorsOf(line)))
  {
    hide TrimStart, Concat, LastEnd, ReasonAt, InputAt, LastOf, ErrorsOf;
    ToldNext(part, line);
    CountsNext(part, line);
    EndNext(part, line);
    TrimNothing();
  }

  lemma ErrorsSay(line: Line)
    ensures var events := if ErrorsOf(line) == [] then [] else [Error(ErrorsOf(line)[0])];
      NoRetry(events) && VoiceOf(events) == Voice("", "", ErrorsOf(line))
  {
    assert forall e: Event :: [e][..0] == [];
  }

  lemma OtherStep(s: State, line: Line, builds: Call -> bool)
    requires BodyOf(line).None? && !line.Done? && !line.RetryLine?
    ensures var o := Step(s, line, builds);
      o.state == s && o.events == if ErrorsOf(line) == [] then [] else [Error(ErrorsOf(line)[0])]
  {
    hide Built, Flush, AddAll, Cleared, Spoken, TextOf, Counted;
  }

  lemma OtherSays(s: State, part: seq<Line>, line: Line, builds: Call -> bool)
    requires Knows(s, part) && BodyOf(line).None? && !line.Done? && !line.RetryLine?
    ensures var o := Step(s, line, builds);
      && NoRetry(o.events) && Knows(o.state, part + [line])
      && Plus(Told(part), VoiceOf(o.events)) == Told(part + [line])
  {
    hide Knows, VoiceOf, Told, Plus, Step, NoRetry, ErrorsOf;
    OtherKeeps(s, part, line);
    OtherStep(s, line, builds);
    ErrorsSay(line);
  }

  lemma TellsLine(before: Output, part: seq<Line>, line: Line, builds: Call -> bool)
    requires Tells(before, part) && !line.RetryLine?
    ensures var o := Step(before.state, line, builds);
      Tells(Output(o.state, before.events + o.events, o.failed), part + [line])
  {
    hide Step, Knows, Told, VoiceOf, NoRetry;
    if line.Done? {
      DoneSays(before.state, part, builds);
    } else if BodyOf(line).Some? {
      BodySays(before.state, part, line, builds);
    } else {
      OtherSays(before.state, part, line, builds);
    }
    VoiceSplit(before.events, Step(before.state, line, builds).events);
  }

  lemma {:induction false} RunTells(lines: seq<Line>, builds: Call -> bool)
    ensures Tells(Run(START, lines, builds), Reached(lines, builds))
  {
    hide Tells, Step, PartFails, Follows;
    if lines == [] {
      TellsNothing([]);
    } else {
      var front, last := lines[..|lines| - 1], lines[|lines| - 1];
      var before := Run(START, front, builds);
      RunTells(front, builds);
      RunFollows(front, builds);
      assert lines == front + [last];
      RunNext(START, front, last, builds);
      FailsAlike(before, Reached(front, builds), builds);
      if !before.failed && last.RetryLine? {
        RetryTells(before, builds);
      } else if !before.failed {
        TellsLine(before, Reached(front, builds), last, builds);
      }
    }
  }

  lemma RetryTells(before: Output, builds: Call -> bool)
    ensures var o := Step(before.state, RetryLine, builds);
      Tells(Output(o.state, before.events + o.events, o.failed), [])
  {
    TellsNothing(before.events + [Retry]);
  }

  // ---------------------------------------------------------------- main results

  /** What is added at the end of the stream. */
  function Finale(end: Option<End>): seq<Event> {
    match end
    case None => [Error(INTERRUPTED), Stop("error")]
    case Some(e) => [Usage(e.input, e.output, e.cacheRead), Stop(e.reason)]
  }

  lemma FinaleSays(end: Option<End>)
    ensures NoRetry(Finale(end))
    ensures VoiceOf(Finale(end)) == Voice("", "", if end.None? then [INTERRUPTED] else [])
  {
    match end
    case None => VoiceNext([Error(INTERRUPTED)], Stop("error")); assert [Error(INTERRUPTED)][..0] == [];
    case Some(e) =>
      VoiceNext([Usage(e.input, e.output, e.cacheRead)], Stop(e.reason));
      assert [Usage(e.input, e.output, e.cacheRead)][..0] == [];
  }

  /**
   For every stream, also one that is given up: the text since the last retry that was read is
   all contents without the line breaks they begin with, the thinking all reasonings, and the
   errors those of the payloads. A stream read to its end closes with the counts and the
   reason of the last [DONE], or with an error when there was none.
   */
  lemma EveryStreamSays(lines: seq<Line>, readFails: bool, builds: Call -> bool)
    ensures var part, out := Reached(lines, builds), Parsed(lines, readFails, builds);
      && VoiceOf(out).text == TrimStart(Concat(ContentOf, part))
      && VoiceOf(out).thinking == Concat(ReasoningOf, part)
      && VoiceOf(out).errors == Concat(ErrorsOf, part) +
           (if GivesUp(lines, readFails, builds) || LastEnd(part).Some? then [] else [INTERRUPTED])
      && (!GivesUp(lines, readFails, builds) ==>
            |out| >= 2 && out[|out| - 2..] == Finale(LastEnd(part)))
  {
    hide Run, Reached, VoiceOf, Concat, TrimStart, LastEnd, NoRetry;
    var part := Reached(lines, builds);
    var o := Run(START, lines, builds);
    RunTells(lines, builds);
    if GivesUp(lines, readFails, builds) {
      Empty(o.events);
      Empty(Concat(ErrorsOf, part));
    } else {
      var finale := Finale(LastEnd(part));
      assert Closing(o.state) == finale;
      FinaleSays(LastEnd(part));
      VoiceSplit(o.events, finale);
      Empty(Told(part).text);
      Empty(Told(part).thinking);
      assert (o.events + finale)[|o.events|..] == finale;
    }
  }
}
