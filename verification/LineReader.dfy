/** A conversation line, read by role, block type and key. */
module LineReader {
  import opened ConversationLog
  import opened HexDigits
  import opened JsonTree
  import opened Options
  import JsonString

  // ---------------------------------------------------------------- reading a tree

  /** The last member with this key: of equal keys the later one wins. */
  function Last(members: Members, key: string): Option<Json> {
    if members.NoMember? then None
    else if Last(members.rest, key).Some? then Last(members.rest, key)
    else if members.key == key then Some(members.value)
    else None
  }

  /** The text of a string member, its escapes resolved. */
  function TextAt(members: Members, key: string): Option<string> {
    match Last(members, key)
    case Some(String(body)) => Some(JsonString.Decode(body))
    case _ => None
  }

  /** The last member's value as it is spelled, with the white space around it. */
  function RawAt(members: Members, key: string): Option<string> {
    if members.NoMember? then None
    else if RawAt(members.rest, key).Some? then RawAt(members.rest, key)
    else if members.key == key then Some(members.beforeValue + JsonTree.Render(members.value) + members.after)
    else None
  }

  predicate HasType(v: Json, kind: string) {
    v.Object? && TextAt(v.members, "type") == Some(kind)
  }

  /** The texts of the blocks of a type, joined. */
  function Said(items: Items, kind: string): string {
    if items.NoItem? then ""
    else
      var text := if HasType(items.value, kind) then TextAt(items.value.members, kind) else None;
      (if text.Some? then text.value else "") + Said(items.rest, kind)
  }

  function CallOf(v: Json): Option<Call> {
    if !HasType(v, "tool_use") then None
    else
      var id, name, input := TextAt(v.members, "id"), TextAt(v.members, "name"), RawAt(v.members, "input");
      if id.Some? && name.Some? && input.Some? then Some(Call(id.value, name.value, input.value)) else None
  }

  function CallsIn(items: Items): seq<Call> {
    if items.NoItem? then []
    else (if CallOf(items.value).Some? then [CallOf(items.value).value] else []) + CallsIn(items.rest)
  }

  function ResultOf(v: Json): Option<ToolResult> {
    if !HasType(v, "tool_result") then None
    else
      var id, output := TextAt(v.members, "tool_use_id"), TextAt(v.members, "content");
      if id.Some? && output.Some? then Some(ToolResult(id.value, output.value)) else None
  }

  function ResultsIn(items: Items): seq<ToolResult> {
    if items.NoItem? then []
    else (if ResultOf(items.value).Some? then [ResultOf(items.value).value] else []) + ResultsIn(items.rest)
  }

  /** What an object says as a line of the conversation. */
  function Read(members: Members): Option<Entry> {
    match (TextAt(members, "role"), Last(members, "content"))
    case (Some(role), Some(String(body))) =>
      if role == "user" then Some(UserText(JsonString.Decode(body))) else None
    case (Some(role), Some(Array(_, items))) =>
      if role == "user" then Some(ToolResults(ResultsIn(items)))
      else if role == "assistant" then Some(Assistant(Said(items, "thinking"), Said(items, "text"), CallsIn(items)))
      else None
    case _ => None
  }

  // ---------------------------------------------------------------- escaped texts are read back

  lemma EscapesAlike(c: char)
    requires c != '\0'
    ensures EscapeChar(c) == JsonString.Escaped(c)
  {
  }

  lemma ZeroIsDecoded(rest: string)
    ensures JsonString.Decode(EscapeChar('\0') + rest) == ['\0'] + JsonString.Decode(rest)
  {
    hide JsonString.Hex, JsonString.Utf8;
    var all := EscapeChar('\0') + rest;
    JsonString.HexOfControl('\0');
    assert all[2..6] == ['0', '0', HexDigit(0), HexDigit(0)];
    assert all[6..] == rest && all[6 + 0..] == rest;
    ZeroByte();
  }

  lemma ZeroByte()
    ensures JsonString.Utf8(0) == ['\0']
  {
  }

  /** The store's escaping is undone by the decoding of section 7 of RFC 8259. */
  lemma {:induction false} EscapedIsRead(s: string)
    ensures JsonString.Decode(ConversationLog.Escape(s)) == s
  {
    if s != "" {
      hide JsonString.Decode, EscapeChar, JsonString.Escaped;
      EscapedIsRead(s[1..]);
      if s[0] == '\0' {
        ZeroIsDecoded(ConversationLog.Escape(s[1..]));
      } else {
        EscapesAlike(s[0]);
        JsonString.DecodeEscaped(s[0], ConversationLog.Escape(s[1..]));
      }
    } else {
      NothingIsRead();
    }
  }

  lemma NothingIsRead()
    ensures JsonString.Decode("") == ""
  {
  }

  lemma {:induction false} PlainIsRead(s: string)
    requires '\\' !in s
    ensures JsonString.Decode(s) == s
  {
    if s != "" {
      PlainIsRead(s[1..]);
      assert s == [s[0]] + s[1..];
    }
  }
}
