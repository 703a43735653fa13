/**
 The Rust client's line form of stream events: text is escaped by four replacements
 so that a line holds no tab and no line break of its own, and a tool call is a list
 of fields between tabs that the parser splits again.
 */
module EventText {
  import opened Options

  /** A tool call; `input` is a value of the JSON library. */
  datatype ToolCallEvent<V> = ToolCallEvent(
    name: string, id: string, input: V, fields: map<string, string>, order: seq<string>)

  /** The JSON library: how it prints a value, and which texts it reads as which value. */
  datatype Json<!V> = Json(text: V -> string, read: string -> Option<V>)

  // ---------------------------------------------------------------- escaping

  /** str::replace of one character. */
  function Replace(s: string, c: char, with: string): string {
    if s == "" then "" else (if s[0] == c then with else [s[0]]) + Replace(s[1..], c, with)
  }

  function EscapeText(s: string): string {
    Replace(Replace(Replace(Replace(s, '\\', ['\\', '\\']), '\n', ['\\', 'n']), '\r', ['\\', 'r']), '\t', ['\\', 't'])
  }

  function EscapeChar(c: char): (s: string)
    ensures '\t' !in s && '\n' !in s && '\r' !in s
    ensures s != ""
  {
    if c == '\\' then ['\\', '\\']
    else if c == '\n' then ['\\', 'n']
    else if c == '\r' then ['\\', 'r']
    else if c == '\t' then ['\\', 't']
    else [c]
  }

  function EscapeEach(s: string): string {
    if s == "" then "" else EscapeChar(s[0]) + EscapeEach(s[1..])
  }

  lemma {:induction false} ReplaceSplit(a: string, b: string, c: char, with: string)
    ensures Replace(a + b, c, with) == Replace(a, c, with) + Replace(b, c, with)
  {
    if a == "" {
      assert a + b == b;
    } else {
      ReplaceSplit(a[1..], b, c, with);
      assert (a + b)[1..] == a[1..] + b && (a + b)[0] == a[0];
      var head := if a[0] == c then with else [a[0]];
      assert head + (Replace(a[1..], c, with) + Replace(b, c, with)) == head + Replace(a[1..], c, with) + Replace(b, c, with);
    }
  }

  lemma EscapeSplit(a: string, b: string)
    ensures EscapeText(a + b) == EscapeText(a) + EscapeText(b)
  {
    hide Replace;
    var a1, b1 := Replace(a, '\\', ['\\', '\\']), Replace(b, '\\', ['\\', '\\']);
    var a2, b2 := Replace(a1, '\n', ['\\', 'n']), Replace(b1, '\n', ['\\', 'n']);
    var a3, b3 := Replace(a2, '\r', ['\\', 'r']), Replace(b2, '\r', ['\\', 'r']);
    ReplaceSplit(a, b, '\\', ['\\', '\\']);
    ReplaceSplit(a1, b1, '\n', ['\\', 'n']);
    ReplaceSplit(a2, b2, '\r', ['\\', 'r']);
    ReplaceSplit(a3, b3, '\t', ['\\', 't']);
  }

  lemma ReplaceOne(x: char, c: char, with: string)
    ensures Replace([x], c, with) == if x == c then with else [x]
  {
    assert [x][1..] == [];
    assert (if x == c then with else [x]) + [] == if x == c then with else [x];
  }

  lemma ReplaceTwo(x: char, y: char, c: char, with: string)
    ensures Replace([x, y], c, with) == (if x == c then with else [x]) + if y == c then with else [y]
  {
    ReplaceSplit([x], [y], c, with);
    ReplaceOne(x, c, with);
    ReplaceOne(y, c, with);
    assert [x] + [y] == [x, y];
  }

  lemma EscapeOne(c: char)
    ensures EscapeText([c]) == EscapeChar(c)
  {
    hide Replace;
    ReplaceOne(c, '\\', ['\\', '\\']);
    ReplaceOne(c, '\n', ['\\', 'n']);
    ReplaceOne(c, '\r', ['\\', 'r']);
    ReplaceOne(c, '\t', ['\\', 't']);
    if c == '\\' {
      Untouched('\\');
      assert EscapeText([c]) == ['\\', '\\'];
    } else if c == '\n' {
      Untouched('n');
      assert EscapeText([c]) == ['\\', 'n'];
    } else if c == '\r' {
      Untouched('r');
      assert EscapeText([c]) == ['\\', 'r'];
    } else {
      assert Replace([c], '\\', ['\\', '\\']) == [c];
      assert Replace([c], '\n', ['\\', 'n']) == [c];
      assert Replace([c], '\r', ['\\', 'r']) == [c];
      assert Replace([c], '\t', ['\\', 't']) == EscapeChar(c);
    }
  }

  /** A pair that one replacement has written is left alone by the later ones. */
  lemma Untouched(second: char)
    requires second == '\\' || second == 'n' || second == 'r'
    ensures Replace(['\\', second], '\n', ['\\', 'n']) == ['\\', second]
    ensures Replace(['\\', second], '\r', ['\\', 'r']) == ['\\', second]
    ensures Replace(['\\', second], '\t', ['\\', 't']) == ['\\', second]
  {
    hide Replace;
    ReplaceTwo('\\', second, '\n', ['\\', 'n']);
    ReplaceTwo('\\', second, '\r', ['\\', 'r']);
    ReplaceTwo('\\', second, '\t', ['\\', 't']);
  }

  /** The four passes are one map over the characters: no pass touches what an earlier one wrote. */
  lemma {:induction false} FourPassesAreOneMap(s: string)
    ensures EscapeText(s) == EscapeEach(s)
  {
    if s != "" {
      FourPassesAreOneMap(s[1..]);
      assert s == [s[0]] + s[1..];
      EscapeSplit([s[0]], s[1..]);
      EscapeOne(s[0]);
    }
  }

  // ---------------------------------------------------------------- unescaping

  function UnescapePair(c: char): string {
    if c == 'n' then ['\n']
    else if c == 'r' then ['\r']
    else if c == 't' then ['\t']
    else if c == '\\' then ['\\']
    else ['\\', c]
  }

  function Unescape(s: string): string {
    if s == "" then ""
    else if s[0] != '\\' then [s[0]] + Unescape(s[1..])
    else if |s| == 1 then ['\\']
    else UnescapePair(s[1]) + Unescape(s[2..])
  }

  lemma UnescapeChar(c: char, rest: string)
    ensures Unescape(EscapeChar(c) + rest) == [c] + Unescape(rest)
  {
    var all := EscapeChar(c) + rest;
    if |EscapeChar(c)| == 2 {
      assert all[2..] == rest;
    } else {
      assert all[1..] == rest;
    }
  }

  lemma {:induction false} UnescapeEach(s: string)
    ensures Unescape(EscapeEach(s)) == s
  {
    if s != "" {
      UnescapeChar(s[0], EscapeEach(s[1..]));
      UnescapeEach(s[1..]);
    }
  }

  lemma {:induction false} EscapedIsOneField(s: string)
    ensures '\t' !in EscapeEach(s) && '\n' !in EscapeEach(s) && '\r' !in EscapeEach(s)
  {
    if s != "" { EscapedIsOneField(s[1..]); }
  }

  /** Every text survives escaping, and its escaped form holds no tab and no line break. */
  lemma EscapeRoundTrip(s: string)
    ensures Unescape(EscapeText(s)) == s
    ensures '\t' !in EscapeText(s) && '\n' !in EscapeText(s) && '\r' !in EscapeText(s)
  {
    FourPassesAreOneMap(s);
    UnescapeEach(s);
    EscapedIsOneField(s);
  }

  lemma UnescapeNothing()
    ensures Unescape("") == ""
  {
  }

  lemma UnescapeAt(s: string, i: nat)
    requires i < |s|
    ensures s[i] != '\\' ==> Unescape(s[i..]) == [s[i]] + Unescape(s[i + 1..])
    ensures s[i] == '\\' && i + 1 == |s| ==> Unescape(s[i..]) == ['\\']
    ensures s[i] == '\\' && i + 1 < |s| ==> Unescape(s[i..]) == UnescapePair(s[i + 1]) + Unescape(s[i + 2..])
    ensures Unescape(s[|s|..]) == ""
  {
    assert s[i..][1..] == s[i + 1..];
    if i + 1 < |s| {
      assert s[i..][2..] == s[i + 2..];
    }
  }

  method UnescapeText(s: string) returns (out: string)
    ensures out == Unescape(s)
  {
    hide Unescape;
    UnescapeNothing();
    assert s[0..] == s;
    out := "";
    var i := 0;
    while i < |s|
      invariant i <= |s|
      invariant Unescape(s) == out + Unescape(s[i..])
      decreases |s| - i
    {
      UnescapeAt(s, i);
      var c := s[i];
      if c != '\\' {
        out := out + [c];
        i := i + 1;
      } else if i + 1 < |s| {
        match s[i + 1] {
          case 'n' => out := out + ['\n'];
          case 'r' => out := out + ['\r'];
          case 't' => out := out + ['\t'];
          case '\\' => out := out + ['\\'];
          case other => out := out + ['\\', other];
        }
        i := i + 2;
      } else {
        out := out + ['\\'];
        i := i + 1;
      }
    }
    assert s[i..] == "";
  }

  // ---------------------------------------------------------------- fields between tabs

  /** str::split on a tab; never empty. */
  function SplitTabs(s: string): (parts: seq<string>)
    ensures |parts| >= 1
  {
    if s == "" then [""]
    else
      var rest := SplitTabs(s[1..]);
      if s[0] == '\t' then [""] + rest else [[s[0]] + rest[0]] + rest[1..]
  }

  function JoinTabs(parts: seq<string>): string {
    if parts == [] then ""
    else if |parts| == 1 then parts[0]
    else parts[0] + ['\t'] + JoinTabs(parts[1..])
  }

  predicate TabFree(parts: seq<string>) {
    forall i :: 0 <= i < |parts| ==> '\t' !in parts[i]
  }

  lemma {:induction false} SplitIsTabFree(s: string)
    ensures TabFree(SplitTabs(s))
  {
    if s != "" {
      SplitIsTabFree(s[1..]);
      var rest := SplitTabs(s[1..]);
      if s[0] != '\t' {
        assert '\t' !in [s[0]] + rest[0];
      }
    }
  }

  lemma {:induction false} SplitField(a: string, s: string)
    requires '\t' !in a
    ensures SplitTabs(a + ['\t'] + s) == [a] + SplitTabs(s)
    ensures SplitTabs(a) == [a]
  {
    var all := a + ['\t'] + s;
    if a == "" {
      assert all[1..] == s;
    } else {
      assert a == [a[0]] + a[1..] && a[0] in a;
      SplitField(a[1..], s);
      assert all[1..] == a[1..] + ['\t'] + s && all[0] == a[0];
    }
  }

  lemma {:induction false} SplitOfJoin(parts: seq<string>)
    requires parts != [] && TabFree(parts)
    ensures SplitTabs(JoinTabs(parts)) == parts
  {
    if |parts| == 1 {
      SplitField(parts[0], "");
    } else {
      SplitField(parts[0], JoinTabs(parts[1..]));
      SplitOfJoin(parts[1..]);
    }
  }

  // ---------------------------------------------------------------- tool calls

  function FieldOf<V>(e: ToolCallEvent<V>, key: string): string {
    if key in e.fields then e.fields[key] else ""
  }

  /** The parts of a rendered tool call, behind the `TOOL_CALL:` tag. */
  function KeyParts<V>(e: ToolCallEvent<V>, order: seq<string>): (parts: seq<string>)
    ensures |parts| == 2 * |order|
  {
    if order == [] then [] else KeyParts(e, order[..|order| - 1]) + [order[|order| - 1], EscapeText(FieldOf(e, order[|order| - 1]))]
  }

  function Parts<V>(e: ToolCallEvent<V>, json: Json<V>): (parts: seq<string>)
    ensures |parts| == 3 + 2 * |e.order|
  {
    [e.name, e.id, EscapeText(json.text(e.input))] + KeyParts(e, e.order)
  }

  function Payload<V>(e: ToolCallEvent<V>, json: Json<V>): string {
    JoinTabs(Parts(e, json))
  }

  /** The pairs read from position 3 on, as far as they are complete. */
  function ReadKeys(parts: seq<string>, n: nat): seq<string>
    requires 3 + 2 * n <= |parts|
  {
    seq(n, i requires 0 <= i < n => parts[3 + 2 * i])
  }

  function ReadFields(parts: seq<string>, n: nat): map<string, string>
    requires 3 + 2 * n <= |parts|
  {
    if n == 0 then map[] else ReadFields(parts, n - 1)[parts[1 + 2 * n] := Unescape(parts[2 + 2 * n])]
  }

  function Parse<V>(payload: string, json: Json<V>): Option<ToolCallEvent<V>> {
    var parts := SplitTabs(payload);
    if |parts| < 3 then None
    else
      var n := (|parts| - 3) / 2;
      match json.read(Unescape(parts[2]))
      case None => None
      case Some(input) => Some(ToolCallEvent(parts[0], parts[1], input, ReadFields(parts, n), ReadKeys(parts, n)))
  }

  lemma {:induction false} KeyPartsAt<V>(e: ToolCallEvent<V>, order: seq<string>)
    ensures forall i :: 0 <= i < |order| ==>
              KeyParts(e, order)[2 * i] == order[i] && KeyParts(e, order)[2 * i + 1] == EscapeText(FieldOf(e, order[i]))
  {
    hide EscapeText;
    if order != [] { KeyPartsAt(e, order[..|order| - 1]); }
  }

  lemma PartsAt<V>(e: ToolCallEvent<V>, i: nat, json: Json<V>)
    requires i < |e.order|
    ensures Parts(e, json)[3 + 2 * i] == e.order[i] && Parts(e, json)[4 + 2 * i] == EscapeText(FieldOf(e, e.order[i]))
  {
    hide EscapeText, KeyParts;
    KeyPartsAt(e, e.order);
    assert Parts(e, json)[3 + 2 * i] == KeyParts(e, e.order)[2 * i];
    assert Parts(e, json)[4 + 2 * i] == KeyParts(e, e.order)[2 * i + 1];
  }

  lemma {:induction false} FieldsOfParts<V>(e: ToolCallEvent<V>, n: nat, json: Json<V>)
    requires n <= |e.order|
    ensures var fields := ReadFields(Parts(e, json), n);
      && fields.Keys == (set k | k in e.order[..n])
      && forall k :: k in fields ==> fields[k] == FieldOf(e, k)
  {
    hide EscapeText, Unescape, Parts, KeyParts, FieldOf, ReadFields;
    if n == 0 {
      ReadNothing(Parts(e, json));
    } else {
      FieldsOfParts(e, n - 1, json);
      PartsAt(e, n - 1, json);
      ReadNext(Parts(e, json), n - 1);
      EscapeRoundTrip(FieldOf(e, e.order[n - 1]));
      assert e.order[..n] == e.order[..n - 1] + [e.order[n - 1]];
      KeysNext(e.order[..n - 1], e.order[n - 1]);
    }
  }

  lemma KeysNext(front: seq<string>, key: string)
    ensures (set k | k in front + [key]) == (set k | k in front) + {key}
  {
  }

  lemma KeysOfParts<V>(e: ToolCallEvent<V>, json: Json<V>)
    ensures ReadKeys(Parts(e, json), |e.order|) == e.order
  {
    hide EscapeText, Parts;
    forall i | 0 <= i < |e.order|
      ensures Parts(e, json)[3 + 2 * i] == e.order[i]
    {
      PartsAt(e, i, json);
    }
  }

  lemma {:induction false} KeyPartsTabFree<V>(e: ToolCallEvent<V>, order: seq<string>)
    requires TabFree(order)
    ensures TabFree(KeyParts(e, order))
  {
    hide EscapeText;
    if order != [] {
      KeyPartsTabFree(e, order[..|order| - 1]);
      EscapeRoundTrip(FieldOf(e, order[|order| - 1]));
    }
  }

  ghost predicate ListsItsFields<V>(e: ToolCallEvent<V>) {
    e.fields.Keys == set k | k in e.order
  }

  /** Parsing a rendered call whose names and keys are free of tabs. */
  lemma ParseOfPayload<V>(e: ToolCallEvent<V>, json: Json<V>)
    requires '\t' !in e.name && '\t' !in e.id && TabFree(e.order)
    ensures var fields := ReadFields(Parts(e, json), |e.order|);
      && Parse(Payload(e, json), json) ==
         (match json.read(json.text(e.input))
          case None => None
          case Some(v) => Some(e.(input := v, fields := fields)))
      && fields.Keys == (set k | k in e.order)
      && forall k :: k in fields ==> fields[k] == FieldOf(e, k)
  {
    hide EscapeText, Unescape, ReadFields, KeyParts;
    KeyPartsTabFree(e, e.order);
    EscapeRoundTrip(json.text(e.input));
    assert TabFree([e.name, e.id, EscapeText(json.text(e.input))]);
    assert TabFree(Parts(e, json));
    SplitOfJoin(Parts(e, json));
    KeysOfParts(e, json);
    FieldsOfParts(e, |e.order|, json);
    assert e.order[..|e.order|] == e.order;
    assert (|Parts(e, json)| - 3) / 2 == |e.order|;
  }

  lemma {:induction false} FieldsOfRead(parts: seq<string>, n: nat)
    requires 3 + 2 * n <= |parts|
    ensures ReadFields(parts, n).Keys == set k | k in ReadKeys(parts, n)
  {
    hide Unescape;
    if n > 0 {
      FieldsOfRead(parts, n - 1);
      assert ReadKeys(parts, n) == ReadKeys(parts, n - 1) + [parts[1 + 2 * n]];
    }
  }

  lemma ParsedHasNoTabs<V>(payload: string, json: Json<V>)
    requires Parse(payload, json).Some?
    ensures var e := Parse(payload, json).value;
      '\t' !in e.name && '\t' !in e.id && TabFree(e.order) && ListsItsFields(e)
  {
    hide Unescape, ReadFields;
    var parts := SplitTabs(payload);
    SplitIsTabFree(payload);
    FieldsOfRead(parts, (|parts| - 3) / 2);
  }

  /**
   A tool call comes back from its rendered form exactly when the JSON library reads back its
   input, its name, id and keys hold no tab, and its order lists its field keys, in any order
   and however often.
   */
  lemma ToolCallRoundTripIff<V>(e: ToolCallEvent<V>, json: Json<V>)
    ensures Parse(Payload(e, json), json) == Some(e) <==>
            && json.read(json.text(e.input)) == Some(e.input)
            && '\t' !in e.name && '\t' !in e.id && TabFree(e.order) && ListsItsFields(e)
  {
    hide Parse, ReadFields, Parts, Payload, FieldOf;
    if Parse(Payload(e, json), json) == Some(e) {
      ParsedHasNoTabs(Payload(e, json), json);
    }
    if '\t' !in e.name && '\t' !in e.id && TabFree(e.order) && ListsItsFields(e) {
      ParseOfPayload(e, json);
      var fields := ReadFields(Parts(e, json), |e.order|);
      SameFields(e, fields);
    }
  }

  lemma SameFields<V>(e: ToolCallEvent<V>, fields: map<string, string>)
    requires fields.Keys == e.fields.Keys && forall k :: k in fields ==> fields[k] == FieldOf(e, k)
    ensures fields == e.fields
  {
  }

  // ---------------------------------------------------------------- the renderer and the parser as they run

  method RenderToolCall<V>(e: ToolCallEvent<V>, json: Json<V>) returns (out: string)
    ensures out == Payload(e, json)
  {
    hide EscapeText;
    out := e.name + ['\t'] + e.id + ['\t'] + EscapeText(json.text(e.input));
    var head := [e.name, e.id, EscapeText(json.text(e.input))];
    JoinThree(e.name, e.id, EscapeText(json.text(e.input)));
    for i := 0 to |e.order|
      invariant out == JoinTabs(head + KeyParts(e, e.order[..i]))
    {
      var key := e.order[i];
      var value := if key in e.fields then e.fields[key] else "";
      assert e.order[..i + 1][..i] == e.order[..i];
      var parts := head + KeyParts(e, e.order[..i]);
      JoinAppend(parts, key);
      JoinAppend(parts + [key], EscapeText(value));
      assert head + KeyParts(e, e.order[..i + 1]) == parts + [key] + [EscapeText(value)];
      out := out + ['\t'] + key + ['\t'] + EscapeText(value);
    }
    assert e.order[..|e.order|] == e.order;
  }

  lemma JoinThree(a: string, b: string, c: string)
    ensures JoinTabs([a, b, c]) == a + ['\t'] + b + ['\t'] + c
    ensures [a, b, c] + [] == [a, b, c]
  {
    assert [a, b, c][1..] == [b, c] && [b, c][1..] == [c];
    assert JoinTabs([b, c]) == b + ['\t'] + c;
  }

  lemma {:induction false} JoinAppend(parts: seq<string>, last: string)
    requires parts != []
    ensures JoinTabs(parts + [last]) == JoinTabs(parts) + ['\t'] + last
  {
    var all := parts + [last];
    if |parts| == 1 {
      assert all[1..] == [last];
    } else {
      JoinAppend(parts[1..], last);
      assert all[1..] == parts[1..] + [last] && all[0] == parts[0];
    }
  }

  method ParseToolCallPayload<V>(payload: string, json: Json<V>) returns (r: Option<ToolCallEvent<V>>)
    ensures r == Parse(payload, json)
  {
    hide Unescape, ReadFields, ReadKeys;
    var parts := SplitTabs(payload);
    if |parts| < 3 {
      return None;
    }
    var text := UnescapeText(parts[2]);
    var input := json.read(text);
    if input.None? {
      return None;
    }
    var fields: map<string, string> := map[];
    var order: seq<string> := [];
    var i := 3;
    ghost var n: nat := 0;
    ReadNothing(parts);
    while i + 1 < |parts|
      invariant i == 3 + 2 * n <= |parts|
      invariant fields == ReadFields(parts, n) && order == ReadKeys(parts, n)
    {
      var key := parts[i];
      var value := UnescapeText(parts[i + 1]);
      ReadNext(parts, n);
      fields := fields[key := value];
      order := order + [key];
      i := i + 2;
      n := n + 1;
    }
    assert n == (|parts| - 3) / 2;
    r := Some(ToolCallEvent(parts[0], parts[1], input.value, fields, order));
  }

  lemma ReadNothing(parts: seq<string>)
    requires |parts| >= 3
    ensures ReadFields(parts, 0) == map[] && ReadKeys(parts, 0) == []
  {
  }

  lemma ReadNext(parts: seq<string>, n: nat)
    requires 5 + 2 * n <= |parts|
    ensures ReadFields(parts, n + 1) == ReadFields(parts, n)[parts[3 + 2 * n] := Unescape(parts[4 + 2 * n])]
    ensures ReadKeys(parts, n + 1) == ReadKeys(parts, n) + [parts[3 + 2 * n]]
  {
  }
}
