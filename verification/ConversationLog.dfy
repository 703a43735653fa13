/** The lines of a conversation, and how they are written. */
module ConversationLog {
  import opened HexDigits
  import opened Options
  import opened TextLines

  datatype Call = Call(id: string, name: string, input: string)

  datatype ToolResult = ToolResult(id: string, output: string)

  /** One line of conversation.jsonl. `input` of a call is the tool's raw JSON text. */
  datatype Entry =
    | UserText(text: string)
    | Assistant(thinking: string, reply: string, calls: seq<Call>)
    | ToolResults(results: seq<ToolResult>)

  type Log = seq<Entry>

  // ---------------------------------------------------------------- pairing

  /** The results carry the ids of the calls, in the same order. */
  predicate Answers(results: seq<ToolResult>, calls: seq<Call>) {
    && |results| == |calls|
    && forall k :: 0 <= k < |calls| ==> results[k].id == calls[k].id
  }

  predicate OpensCalls(e: Entry) {
    e.Assistant? && e.calls != []
  }

  /** Line i is in its place: calls are answered at once, and results only answer calls. */
  predicate PairedAt(log: Log, i: nat)
    requires i < |log|
  {
    && (OpensCalls(log[i]) ==>
          i + 1 < |log| && log[i + 1].ToolResults? && Answers(log[i + 1].results, log[i].calls))
    && (log[i].ToolResults? ==> i > 0 && OpensCalls(log[i - 1]))
  }

  predicate AllPaired(log: Log) {
    forall i :: 0 <= i < |log| ==> PairedAt(log, i)
  }

  predicate WellFormed(log: Log) {
    (log != [] ==> log[0].UserText?) && AllPaired(log)
  }

  lemma AppendUser(log: Log, text: string)
    requires WellFormed(log)
    ensures WellFormed(log + [UserText(text)])
  {
    var log' := log + [UserText(text)];
    forall i | 0 <= i < |log'| ensures PairedAt(log', i) {
      if i < |log| { assert PairedAt(log, i); }
    }
  }

  lemma AppendReply(log: Log, thinking: string, reply: string)
    requires WellFormed(log) && log != []
    ensures WellFormed(log + [Assistant(thinking, reply, [])])
  {
    var log' := log + [Assistant(thinking, reply, [])];
    forall i | 0 <= i < |log'| ensures PairedAt(log', i) {
      if i < |log| { assert PairedAt(log, i); }
    }
  }

  lemma AppendCalls(log: Log, thinking: string, reply: string, calls: seq<Call>, results: seq<ToolResult>)
    requires WellFormed(log) && log != [] && calls != [] && Answers(results, calls)
    ensures WellFormed(log + [Assistant(thinking, reply, calls)] + [ToolResults(results)])
  {
    var log' := log + [Assistant(thinking, reply, calls)] + [ToolResults(results)];
    forall i | 0 <= i < |log'| ensures PairedAt(log', i) {
      if i < |log| { assert PairedAt(log, i); }
    }
  }

  /** Cutting in front of a user text line separates no call from its results. */
  lemma CutAtUser(log: Log, cut: nat)
    requires WellFormed(log) && cut <= |log|
    requires cut < |log| ==> log[cut].UserText?
    ensures WellFormed(log[cut..]) && WellFormed(log[..cut])
  {
    forall i | 0 <= i < |log| - cut ensures PairedAt(log[cut..], i) {
      assert PairedAt(log, cut + i);
    }
    forall i | 0 <= i < cut ensures PairedAt(log[..cut], i) {
      assert PairedAt(log, i);
    }
  }

  /** Cutting in front of any other line than one of results separates none either. */
  lemma CutAtReply(log: Log, cut: nat)
    requires WellFormed(log) && 0 < cut < |log| && !log[cut].ToolResults?
    ensures AllPaired(log[cut..]) && WellFormed(log[..cut])
  {
    forall i | 0 <= i < |log| - cut ensures PairedAt(log[cut..], i) {
      assert PairedAt(log, cut + i);
    }
    forall i | 0 <= i < cut ensures PairedAt(log[..cut], i) {
      assert PairedAt(log, i);
    }
  }

  // ---------------------------------------------------------------- writing lines

  function EscapeChar(c: char): (s: string)
    ensures '\n' !in s
  {
    if c == '"' then "\\\""
    else if c == '\\' then "\\\\"
    else if c == '\n' then "\\n"
    else if c == '\r' then "\\r"
    else if c == '\t' then "\\t"
    else if c as int == 0x08 then "\\b"
    else if c as int == 0x0C then "\\f"
    else if c as int < 0x20 then "\\u00" + [HexDigit(c as int / 16), HexDigit(c as int % 16)]
    else [c]
  }

  function Escape(s: string): (r: string)
    ensures '\n' !in r
  {
    if s == "" then "" else EscapeChar(s[0]) + Escape(s[1..])
  }

  /** A tool_use block up to its input, which follows as raw JSON. */
  function CallHead(id: string, name: string): (s: string)
    ensures '\n' !in s
  {
    ",{\"type\":\"tool_use\",\"id\":\"" + Escape(id) + "\",\"name\":\"" + Escape(name) + "\",\"input\":"
  }

  function RenderCall(c: Call): string {
    CallHead(c.id, c.name) + (c.input + "}")
  }

  function RenderCalls(calls: seq<Call>): string {
    if calls == [] then "" else RenderCall(calls[0]) + RenderCalls(calls[1..])
  }

  function RenderResult(r: ToolResult): (s: string)
    ensures '\n' !in s
  {
    "{\"type\":\"tool_result\",\"tool_use_id\":\"" + Escape(r.id) + "\",\"content\":\"" + Escape(r.output) + "\"}"
  }

  function RenderResults(results: seq<ToolResult>): (s: string)
    ensures '\n' !in s
  {
    if results == [] then ""
    else if |results| == 1 then RenderResult(results[0])
    else RenderResult(results[0]) + "," + RenderResults(results[1..])
  }

  const USER_TEXT := "{\"role\":\"user\",\"content\":\""
  const USER_BLOCKS := "{\"role\":\"user\",\"content\":["
  const ASSISTANT := "{\"role\":\"assistant\",\"content\":["

  function AssistantBlocks(thinking: string, reply: string): (s: string)
    ensures '\n' !in s
  {
    "{\"type\":\"thinking\",\"thinking\":\"" + Escape(thinking)
    + "\"},{\"type\":\"text\",\"text\":\"" + Escape(reply) + "\"}"
  }

  /** The line the store writes for an entry, without its newline. */
  function Render(e: Entry): string {
    match e
    case UserText(text) => USER_TEXT + (Escape(text) + "\"}")
    case Assistant(thinking, reply, calls) => ASSISTANT + (AssistantBlocks(thinking, reply) + (RenderCalls(calls) + "]}"))
    case ToolResults(results) => USER_BLOCKS + (RenderResults(results) + "]}")
  }

  predicate OneLineCalls(calls: seq<Call>) {
    forall k :: 0 <= k < |calls| ==> '\n' !in calls[k].input
  }

  /** Tool inputs are written unescaped, so an entry is one line only if they hold no newline. */
  predicate OneLine(e: Entry) {
    e.Assistant? ==> OneLineCalls(e.calls)
  }

  predicate OneLineLog(log: Log) {
    forall i :: 0 <= i < |log| ==> OneLine(log[i])
  }

  lemma NewlineInAppend(a: string, b: string)
    ensures '\n' in a + b <==> '\n' in a || '\n' in b
  {
  }

  lemma {:induction false} RenderCallsOneLine(calls: seq<Call>)
    ensures '\n' !in RenderCalls(calls) <==> OneLineCalls(calls)
  {
    if calls != [] {
      var c := calls[0];
      RenderCallsOneLine(calls[1..]);
      NewlineInAppend(CallHead(c.id, c.name), c.input + "}");
      NewlineInAppend(c.input, "}");
      NewlineInAppend(RenderCall(c), RenderCalls(calls[1..]));
      OneLineCallsCons(calls);
    }
  }

  lemma OneLineCallsCons(calls: seq<Call>)
    requires calls != []
    ensures OneLineCalls(calls) <==> '\n' !in calls[0].input && OneLineCalls(calls[1..])
  {
    if OneLineCalls(calls) {
      assert forall k :: 0 <= k < |calls[1..]| ==> calls[1..][k] == calls[k + 1];
    } else if OneLineCalls(calls[1..]) {
      assert forall k :: 0 < k < |calls| ==> calls[k] == calls[1..][k - 1];
    }
  }

  /** Exactly when an entry is written as one physical line. */
  lemma RenderIsOneLineIff(e: Entry)
    ensures '\n' !in Render(e) <==> OneLine(e)
  {
    match e
    case UserText(text) =>
      NewlineInAppend(USER_TEXT, Escape(text) + "\"}");
    case Assistant(thinking, reply, calls) =>
      RenderCallsOneLine(calls);
      NewlineInAppend(RenderCalls(calls), "]}");
      NewlineInAppend(AssistantBlocks(thinking, reply), RenderCalls(calls) + "]}");
      NewlineInAppend(ASSISTANT, AssistantBlocks(thinking, reply) + (RenderCalls(calls) + "]}"));
    case ToolResults(results) =>
      NewlineInAppend(USER_BLOCKS, RenderResults(results) + "]}");
  }

  // ---------------------------------------------------------------- line formats

  /** How entries are written as lines, and how a reader recognises the line that starts a turn. */
  datatype Format = Format(render: Entry -> string, isUserLine: string -> bool)

  /** What files need of their format: entries are no blank lines, and single lines unless a tool input breaks them. */
  ghost predicate Faithful(f: Format) {
    forall e: Entry :: Solid(f.render(e)) && ('\n' !in f.render(e) <==> OneLine(e))
  }

  /** The reader takes the entry's line for what it is: the start of a turn, or not. */
  predicate Told(f: Format, e: Entry) {
    f.isUserLine(f.render(e)) <==> e.UserText?
  }

  /** What JSON decoding tells of a line: the role, and whether the content is a string. */
  datatype Message = Message(role: string, plain: bool)

  type Decoder = string -> Option<Message>

  predicate Contains(s: string, part: string) {
    exists i :: 0 <= i <= |s| && StandsAt(s, part, i)
  }

  predicate StandsAt(s: string, part: string, i: nat) {
    i + |part| <= |s| && s[i..i + |part|] == part
  }

  const ROLE_USER := "\"role\":\"user\""
  const CONTENT_BLOCKS := "\"content\":["

  /** A line that starts a turn: decoded where it decodes, searched for its keys where it does not. */
  predicate IsRealUserLine(decode: Decoder, line: string) {
    match decode(line)
    case Some(m) => m.role == "user" && m.plain
    case None => Contains(line, ROLE_USER) && !Contains(line, CONTENT_BLOCKS)
  }

  function StoreFormat(decode: Decoder): Format {
    Format(e => Render(e), line => IsRealUserLine(decode, line))
  }

  /** No quote stands in a text without a backslash in front of it. */
  predicate QuotesEscaped(s: string) {
    forall k :: 0 <= k < |s| && s[k] == '"' ==> k > 0 && s[k - 1] == '\\'
  }

  lemma QuoteOfChar(c: char)
    ensures QuotesEscaped(EscapeChar(c))
  {
    forall n: nat | n < 16 ensures HexDigit(n) != '"' {}
  }

  lemma QuotesAppend(a: string, b: string)
    requires QuotesEscaped(a) && QuotesEscaped(b)
    ensures QuotesEscaped(a + b)
  {
    forall k | 0 <= k < |a + b| && (a + b)[k] == '"'
      ensures k > 0 && (a + b)[k - 1] == '\\'
    {
      assert (a + b)[k] == if k < |a| then a[k] else b[k - |a|];
    }
  }

  lemma {:induction false} EscapedQuotes(s: string)
    ensures QuotesEscaped(Escape(s))
  {
    if s != "" {
      hide EscapeChar, QuotesEscaped;
      EscapedQuotes(s[1..]);
      QuoteOfChar(s[0]);
      QuotesAppend(EscapeChar(s[0]), Escape(s[1..]));
    }
  }

  lemma QuoteInText(text: string, q: nat)
    requires var line := USER_TEXT + (Escape(text) + "\"}"); |USER_TEXT| < q < |line| - 2 && line[q] == '"'
    ensures (USER_TEXT + (Escape(text) + "\"}"))[q - 1] == '\\'
  {
    hide Escape;
    EscapedQuotes(text);
    var line := USER_TEXT + (Escape(text) + "\"}");
    assert line[q] == Escape(text)[q - |USER_TEXT|] && line[q - 1] == Escape(text)[q - 1 - |USER_TEXT|];
  }

  lemma NoBlocksAt(text: string, i: nat)
    requires i + |CONTENT_BLOCKS| <= |USER_TEXT + (Escape(text) + "\"}")|
    ensures (USER_TEXT + (Escape(text) + "\"}"))[i..i + |CONTENT_BLOCKS|] != CONTENT_BLOCKS
  {
    hide Escape;
    var line := USER_TEXT + (Escape(text) + "\"}");
    var part := line[i..i + |CONTENT_BLOCKS|];
    if part == CONTENT_BLOCKS {
      assert part[0] == line[i] == '"' && part[1] == line[i + 1] == 'c';
      assert part[7] == line[i + 7] == 't' && part[8] == line[i + 8] == '"' && part[10] == line[i + 10] == '[';
      if i < 25 {
        StartOfUserLine(line, i);
      } else {
        QuoteInText(text, i + 8);
      }
    }
  }

  /** No text can make a user line look as if its content were blocks: its own quotes are escaped. */
  lemma UserLineHasNoBlocks(text: string)
    ensures !Contains(USER_TEXT + (Escape(text) + "\"}"), CONTENT_BLOCKS)
  {
    hide Escape;
    var line := USER_TEXT + (Escape(text) + "\"}");
    if Contains(line, CONTENT_BLOCKS) {
      var i :| 0 <= i <= |line| && StandsAt(line, CONTENT_BLOCKS, i);
      NoBlocksAt(text, i);
    }
  }

  lemma ContentKey(i: nat)
    requires i < 25 && USER_TEXT[i] == '"' && USER_TEXT[i + 1] == 'c'
    ensures i == 15
  {
  }

  lemma StartOfUserLine(line: string, i: nat)
    requires USER_TEXT <= line && i < 25 && line[i] == '"' && line[i + 1] == 'c'
    ensures i == 15 && line[25] == '"'
  {
    ContentKey(i);
  }

  /** On the lines written, the search for keys is always right. */
  lemma RenderStart(e: Entry)
    ensures Contains(Render(e), ROLE_USER) && !Contains(Render(e), CONTENT_BLOCKS) <==> e.UserText?
  {
    hide Escape, RenderCalls, RenderResults, AssistantBlocks;
    var r := Render(e);
    match e
    case UserText(text) =>
      UserLineHasNoBlocks(text);
      assert USER_TEXT == "{" + ROLE_USER + ",\"content\":\"";
      assert r[1..14] == USER_TEXT[1..14] == ROLE_USER;
      assert StandsAt(r, ROLE_USER, 1);
    case Assistant(_, _, _) =>
      assert r[20..31] == ASSISTANT[20..31] == CONTENT_BLOCKS;
      assert StandsAt(r, CONTENT_BLOCKS, 20);
    case ToolResults(_) =>
      assert r[15..26] == USER_BLOCKS[15..26] == CONTENT_BLOCKS;
      assert StandsAt(r, CONTENT_BLOCKS, 15);
  }

  lemma RenderIsSolid(e: Entry)
    ensures Solid(Render(e))
  {
    hide Escape, RenderCalls, RenderResults, AssistantBlocks;
    var r := Render(e);
    assert r[0] == '{' && r[|r| - 1] == '}';
  }

  /** The store's format is one, whatever the reader's decoder makes of the lines. */
  lemma StoreFormatIsFaithful(decode: Decoder)
    ensures Faithful(StoreFormat(decode))
  {
    hide Render, OneLine, Solid;
    forall e: Entry
      ensures StoreFormat(decode).render(e) == Render(e) && Solid(Render(e)) && ('\n' !in Render(e) <==> OneLine(e))
    {
      RenderIsOneLineIff(e);
      RenderIsSolid(e);
    }
  }

  /**
   Exactly when an entry is told apart: its line does not decode, for then the search for keys is
   right, or what it decodes to has a user's role and a string as content just for user text.
   */
  lemma ToldIff(decode: Decoder, e: Entry)
    ensures Told(StoreFormat(decode), e) <==>
              match decode(Render(e))
              case Some(m) => (m.role == "user" && m.plain) <==> e.UserText?
              case None => true
  {
    hide Render;
    RenderStart(e);
  }

  // ---------------------------------------------------------------- the file of a log

  /** The log as the lines written for it, and the file they make. */
  function Rendered(f: Format, log: Log): seq<string> {
    seq(|log|, i requires 0 <= i < |log| => f.render(log[i]))
  }

  function RenderAll(f: Format, log: Log): string {
    JoinLines(Rendered(f, log))
  }

  lemma RenderedIsOneLine(f: Format, log: Log)
    requires Faithful(f)
    ensures OneLineLog(log) <==> NewlineFree(Rendered(f, log))
    ensures forall i :: 0 <= i < |log| ==> Solid(Rendered(f, log)[i])
  {
    forall i | 0 <= i < |log|
      ensures (OneLine(log[i]) <==> '\n' !in Rendered(f, log)[i]) && Solid(Rendered(f, log)[i])
    {
      assert Rendered(f, log)[i] == f.render(log[i]);
    }
  }

  lemma RenderedSlice(f: Format, log: Log, i: nat, j: nat)
    requires i <= j <= |log|
    ensures Rendered(f, log)[i..j] == Rendered(f, log[i..j])
  {
  }

  lemma RenderAllAppend(f: Format, log: Log, log': Log)
    ensures RenderAll(f, log + log') == RenderAll(f, log) + RenderAll(f, log')
  {
    assert Rendered(f, log + log') == Rendered(f, log) + Rendered(f, log');
    JoinAppend(Rendered(f, log), Rendered(f, log'));
  }

  lemma RenderAllOne(f: Format, log: Log, e: Entry)
    ensures RenderAll(f, log + [e]) == RenderAll(f, log) + f.render(e) + "\n"
  {
    RenderAllAppend(f, log, [e]);
    assert Rendered(f, [e]) == [f.render(e)];
    assert JoinLines([f.render(e)]) == f.render(e) + "\n" + JoinLines([]);
  }

  /** The file of a log reads back as the log's lines. */
  lemma LinesOfLog(f: Format, log: Log)
    requires Faithful(f) && OneLineLog(log)
    ensures Lines(RenderAll(f, log)) == Rendered(f, log)
    ensures Newlines(RenderAll(f, log)) == |log|
  {
    RenderedIsOneLine(f, log);
    LinesOfJoin(Rendered(f, log));
    NewlinesOfJoin(Rendered(f, log));
  }

  /** Cutting the file behind k lines is cutting the log behind k entries. */
  lemma CutOfLog(f: Format, log: Log, k: nat, o: nat)
    requires Faithful(f) && OneLineLog(log) && k <= |log| && IsEndOffset(RenderAll(f, log), k, o)
    ensures RenderAll(f, log)[..o] == RenderAll(f, log[..k])
    ensures RenderAll(f, log)[o..] == RenderAll(f, log[k..])
  {
    RenderedIsOneLine(f, log);
    CutOfJoin(Rendered(f, log), k, o);
    RenderedSlice(f, log, 0, k);
    RenderedSlice(f, log, k, |log|);
    assert log[0..k] == log[..k] && log[k..|log|] == log[k..];
    assert Rendered(f, log)[..k] == Rendered(f, log[..k]) && Rendered(f, log)[k..] == Rendered(f, log[k..]);
  }

  lemma OneLineAppend(a: Log, b: Log)
    ensures OneLineLog(a + b) <==> OneLineLog(a) && OneLineLog(b)
  {
    if OneLineLog(a + b) {
      assert forall i :: 0 <= i < |a| ==> (a + b)[i] == a[i];
      assert forall i :: 0 <= i < |b| ==> (a + b)[|a| + i] == b[i];
    }
  }

  /** Exactly when the file of a log reads back entry by entry: no tool input holds a newline. */
  lemma ReadsBackIff(f: Format, log: Log)
    requires Faithful(f)
    ensures Lines(RenderAll(f, log)) == Rendered(f, log) <==> OneLineLog(log)
  {
    if OneLineLog(log) {
      LinesOfLog(f, log);
    } else {
      var i :| 0 <= i < |log| && !OneLine(log[i]);
      LinesHoldNoNewline(RenderAll(f, log));
      assert Rendered(f, log)[i] == f.render(log[i]);
    }
  }

  /** One append to a readable file: it stays readable exactly when the new entry is one line. */
  lemma AppendReadsBackIff(f: Format, log: Log, e: Entry)
    requires Faithful(f) && OneLineLog(log)
    ensures Lines(RenderAll(f, log + [e])) == Rendered(f, log + [e]) <==> OneLine(e)
  {
    ReadsBackIff(f, log + [e]);
    OneLineAppend(log, [e]);
    assert OneLineLog([e]) <==> OneLine([e][0]);
  }

  /** A pretty-printed tool input is enough: whatever the file held, it no longer reads back. */
  lemma PrettyPrintedInputTearsTheLine(f: Format, log: Log)
    requires Faithful(f) && OneLineLog(log)
    ensures var e := Assistant("", "", [Call("c1", "Read", "{\n}")]);
      Lines(RenderAll(f, log + [e])) != Rendered(f, log + [e])
  {
    var calls := [Call("c1", "Read", "{\n}")];
    assert calls[0].input[1] == '\n';
    AppendReadsBackIff(f, log, Assistant("", "", calls));
  }
}
