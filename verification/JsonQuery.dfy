/**
 The parser and the queries over its spans as the C code runs them: a cursor moved by
 loops. Each agrees with a function of the text, and the queries with the tree whose
 text the span is.
 */
module JsonQuery {
  import opened JsonTree
  import opened JsonSpan

  // ---------------------------------------------------------------- the cursor

  method SkipWhitespace(src: string, pos: nat) returns (p: nat)
    ensures p == SkipWs(src, pos)
  {
    p := pos;
    while At(src, p) == ' ' || At(src, p) == '\t' || At(src, p) == '\n' || At(src, p) == '\r'
      invariant SkipWs(src, p) == SkipWs(src, pos)
      decreases |src| - p
    {
      p := p + 1;
    }
  }

  method SkipDecimals(src: string, pos: nat) returns (p: nat)
    ensures p == SkipDigits(src, pos)
  {
    p := pos;
    while IsDigit(At(src, p))
      invariant SkipDigits(src, p) == SkipDigits(src, pos)
      decreases |src| - p
    {
      p := p + 1;
    }
  }

  method ReadString(src: string, pos: nat) returns (r: Parse)
    ensures r == ParseString(src, pos)
  {
    var p := pos + 1;
    while At(src, p) != '\0' && At(src, p) != '"'
      invariant SkipBody(src, p) == SkipBody(src, pos + 1)
      decreases |src| - p
    {
      if At(src, p) == '\\' {
        p := p + 1;
      }
      p := p + 1;
    }
    if At(src, p) != '"' {
      return Err("unclosed string");
    }
    r := Ok(STRING, pos, p + 1);
  }

  method ReadNumber(src: string, pos: nat) returns (p: nat)
    ensures p == SkipNumber(src, pos)
  {
    p := pos;
    if At(src, p) == '-' {
      p := p + 1;
    }
    p := SkipDecimals(src, p);
    if At(src, p) == '.' {
      p := SkipDecimals(src, p + 1);
    }
    if At(src, p) == 'e' || At(src, p) == 'E' {
      p := p + 1;
      if At(src, p) == '+' || At(src, p) == '-' {
        p := p + 1;
      }
      p := SkipDecimals(src, p);
    }
  }

  method ReadValue(src: string, pos: nat) returns (r: Parse)
    requires pos <= |src|
    ensures r == ParseValue(src, pos)
    decreases |src| - pos, 1
  {
    var p := SkipWhitespace(src, pos);
    var c := At(src, p);
    if c == '"' {
      r := ReadString(src, p);
    } else if c == '{' {
      r := ReadObject(src, p);
    } else if c == '[' {
      r := ReadArray(src, p);
    } else if c == 't' {
      r := ParseWord(src, p, "true", BOOL, "expected 'true'");
    } else if c == 'f' {
      r := ParseWord(src, p, "false", BOOL, "expected 'false'");
    } else if c == 'n' {
      r := ParseWord(src, p, "null", NULL, "expected 'null'");
    } else if c == '-' || IsDigit(c) {
      var end := ReadNumber(src, p);
      r := Ok(NUMBER, p, end);
    } else {
      r := Err("unexpected character");
    }
  }

  method ReadArray(src: string, start: nat) returns (r: Parse)
    requires start < |src|
    ensures r == ParseArray(src, start)
    decreases |src| - start, 0
  {
    hide ParseValue;
    var pos := SkipWhitespace(src, start + 1);
    if At(src, pos) == ']' {
      return Ok(ARRAY, start, pos + 1);
    }
    while true
      invariant start < pos <= |src| && ParseArray(src, start) == ParseItems(src, start, pos)
      decreases |src| - pos
    {
      pos := SkipWhitespace(src, pos);
      SkipWsAgain(src, pos);
      r := ReadValue(src, pos);
      if r.Err? {
        return;
      }
      pos := SkipWhitespace(src, r.end);
      if At(src, pos) == ',' {
        pos := pos + 1;
      } else if At(src, pos) == ']' {
        return Ok(ARRAY, start, pos + 1);
      } else {
        return Err("expected ',' or ']'");
      }
    }
  }

  /** A key and its colon, up to where its value begins. */
  method ReadKey(src: string, pos: nat) returns (r: Parse)
    requires pos <= |src|
    ensures r == ParseKey(src, pos)
  {
    var p := SkipWhitespace(src, pos);
    if At(src, p) != '"' {
      return Err("expected string key");
    }
    r := ReadString(src, p);
    if r.Err? {
      return;
    }
    var q := SkipWhitespace(src, r.end);
    if At(src, q) != ':' {
      return Err("expected ':'");
    }
    q := SkipWhitespace(src, q + 1);
    r := Ok(STRING, p, q);
  }

  method ReadObject(src: string, start: nat) returns (r: Parse)
    requires start < |src|
    ensures r == ParseObject(src, start)
    decreases |src| - start, 0
  {
    hide ParseValue, ParseKey;
    var pos := SkipWhitespace(src, start + 1);
    if At(src, pos) == '}' {
      return Ok(OBJECT, start, pos + 1);
    }
    while true
      invariant start < pos <= |src| && ParseObject(src, start) == ParseMembers(src, start, pos)
      decreases |src| - pos
    {
      r := ReadKey(src, pos);
      if r.Err? {
        return;
      }
      r := ReadValue(src, r.end);
      if r.Err? {
        return;
      }
      pos := SkipWhitespace(src, r.end);
      if At(src, pos) == ',' {
        pos := pos + 1;
      } else if At(src, pos) == '}' {
        return Ok(OBJECT, start, pos + 1);
      } else {
        return Err("expected ',' or '}'");
      }
    }
  }

  /** A whole text: what is accepted is exactly a legal value with white space around it. */
  method ReadRoot(src: string) returns (r: Parse)
    ensures r == ParseRoot(src)
    ensures (forall i :: 0 <= i < |src| ==> src[i] != '\0') ==> (r.Ok? <==> IsText(src))
  {
    r := ReadValue(src, 0);
    if r.Ok? {
      var p := SkipWhitespace(src, r.end);
      if At(src, p) != '\0' {
        r := Err("trailing content");
      }
    }
    if forall i :: 0 <= i < |src| ==> src[i] != '\0' {
      RootAcceptsIff(src);
    }
  }

  // ---------------------------------------------------------------- queries

  /** What a query returns: a value's kind and span. */
  datatype Span = Span(kind: Kind, start: nat, end: nat)

  const NULL_VAL := Span(NULL, 0, 0)

  function Val(r: Parse): Span {
    if r.Ok? then Span(r.kind, r.start, r.end) else NULL_VAL
  }

  /** The span of v where its text stands. */
  function SpanOf(pos: nat, v: Json): Span {
    Span(KindOf(v), pos, pos + Width(v))
  }

  function CountFrom(src: string, pos: nat): nat
    requires pos <= |src|
    decreases |src| - pos
  {
    var v := ParseValue(src, SkipWs(src, pos));
    if v.Err? then 0
    else
      var p := SkipWs(src, v.end);
      1 + if At(src, p) == ',' then CountFrom(src, p + 1) else 0
  }

  function NthFrom(src: string, pos: nat, index: nat): Span
    requires pos <= |src|
    decreases |src| - pos
  {
    var v := ParseValue(src, SkipWs(src, pos));
    if v.Err? then NULL_VAL
    else if index == 0 then Val(v)
    else
      var p := SkipWs(src, v.end);
      if At(src, p) == ',' then NthFrom(src, p + 1, index - 1) else NULL_VAL
  }

  function ArrayLen(src: string, arr: Span): nat
    requires arr.start < |src|
  {
    if arr.kind != ARRAY || At(src, SkipWs(src, arr.start + 1)) == ']' then 0 else CountFrom(src, arr.start + 1)
  }

  function ArrayGet(src: string, arr: Span, index: int): Span
    requires arr.start < |src|
  {
    if arr.kind != ARRAY || index < 0 || At(src, SkipWs(src, arr.start + 1)) == ']' then NULL_VAL
    else NthFrom(src, arr.start + 1, index)
  }

  /** The lookup takes the key's quote on trust, as the object was parsed before. */
  function GetKey(src: string, pos: nat): (r: Parse)
    requires pos <= |src|
    ensures r.Ok? ==> pos < r.end <= |src| && r.start + 2 <= r.end
  {
    ParseString(src, SkipWs(src, pos))
  }

  /** The key between its quotes, byte by byte. */
  predicate HasBytes(src: string, k: Parse, key: string) {
    k.Ok? && k.start + 2 <= k.end <= |src| && src[k.start + 1..k.end - 1] == key
  }

  function GetFrom(src: string, pos: nat, key: string): Span
    requires pos <= |src|
    decreases |src| - pos
  {
    var k := GetKey(src, pos);
    if k.Err? || At(src, SkipWs(src, k.end)) != ':' then NULL_VAL
    else
      var v := ParseValue(src, SkipWs(src, SkipWs(src, k.end) + 1));
      if HasBytes(src, k, key) then Val(v)
      else if v.Err? then NULL_VAL
      else
        var p := SkipWs(src, v.end);
        if At(src, p) == ',' then GetFrom(src, p + 1, key) else NULL_VAL
  }

  function Get(src: string, obj: Span, key: string): Span
    requires obj.start < |src|
  {
    if obj.kind != OBJECT || At(src, SkipWs(src, obj.start + 1)) == '}' then NULL_VAL
    else GetFrom(src, obj.start + 1, key)
  }

  // ---------------------------------------------------------------- what the queries mean on a tree

  /** Where an element's text begins, counted from the start of the elements. */
  function NthOffset(items: Items, index: nat): nat
    requires index < Length(items)
  {
    if index == 0 then |items.before| else ItemWidth(items) + 1 + NthOffset(items.rest, index - 1)
  }

  function LookupOffset(members: Members, key: string): nat
    requires HasKey(members, key)
  {
    if members.key == key then KeyWidth(members) else MemberWidth(members) + 1 + LookupOffset(members.rest, key)
  }

  lemma {:induction false} CountOfItems(src: string, pos: nat, items: Items)
    requires items.Item? && LegalItems(items) && SpellsItems(src, pos, items)
    requires At(src, pos + ItemsWidth(items)) == ']'
    ensures pos <= |src| && CountFrom(src, pos) == Length(items)
    decreases items
  {
    hide ParseValue, Spells, Legal, KindOf, Width, SkipWs, ItemsWidth;
    var p, q, r := ItemAt(src, pos, items);
    if items.rest.Item? {
      CountOfItems(src, r + 1, items.rest);
    }
  }

  lemma {:induction false} NthOfItems(src: string, pos: nat, items: Items, index: nat)
    requires items.Item? && LegalItems(items) && SpellsItems(src, pos, items)
    requires At(src, pos + ItemsWidth(items)) == ']'
    ensures pos <= |src|
    ensures NthFrom(src, pos, index) ==
            if index < Length(items) then SpanOf(pos + NthOffset(items, index), Nth(items, index)) else NULL_VAL
    decreases items
  {
    hide ParseValue, Spells, Legal, KindOf, SkipWs, NthFrom, Width, ItemsWidth, ItemWidth, SpellsItems, LegalItems, SpanOf, At;
    var r := ItemFound(src, pos, items, index);
    if items.rest.Item? && index > 0 {
      NthOfItems(src, r + 1, items.rest, index - 1);
    }
  }

  /** One element of the list: the index is reached here, or counts on behind the comma. */
  lemma ItemFound(src: string, pos: nat, items: Items, index: nat) returns (r: nat)
    requires items.Item? && LegalItems(items) && SpellsItems(src, pos, items)
    requires At(src, pos + ItemsWidth(items)) == ']'
    ensures pos <= |src| && r == pos + ItemWidth(items)
    ensures items.rest.Item? ==>
              r + 1 <= |src| && LegalItems(items.rest) && SpellsItems(src, r + 1, items.rest) &&
              At(src, r + 1 + ItemsWidth(items.rest)) == ']'
    ensures NthFrom(src, pos, index) ==
            if index == 0 then SpanOf(pos + |items.before|, items.value)
            else if items.rest.Item? then NthFrom(src, r + 1, index - 1) else NULL_VAL
  {
    hide ParseValue, Spells, Legal, KindOf, SkipWs, NthFrom, Width, ItemsWidth, SpellsItems, LegalItems, ItemWidth;
    var p, q, end := ItemAt(src, pos, items);
    r := end;
    NthStep(src, pos, p, index);
    if items.rest.Item? { CommaIsInside(src, r); }
  }

  lemma CommaIsInside(src: string, r: nat)
    requires At(src, r) == ','
    ensures r < |src|
  {
  }

  /** The positions of one element, and what the rest of the elements needs. */
  lemma ItemAt(src: string, pos: nat, items: Items) returns (p: nat, q: nat, r: nat)
    requires items.Item? && LegalItems(items) && SpellsItems(src, pos, items)
    requires At(src, pos + ItemsWidth(items)) == ']'
    ensures p == pos + |items.before| && pos <= p <= |src| && p == SkipWs(src, pos)
    ensures ParseValue(src, p) == Ok(KindOf(items.value), p, q) && Span(KindOf(items.value), p, q) == SpanOf(p, items.value)
    ensures r == SkipWs(src, q) && r == pos + ItemWidth(items)
    ensures At(src, r) == if items.rest.Item? then ',' else ']'
    ensures items.rest.Item? ==>
              LegalItems(items.rest) && SpellsItems(src, r + 1, items.rest) &&
              At(src, r + 1 + ItemsWidth(items.rest)) == ']'
  {
    hide ParseValue, Spells, Legal, KindOf, SkipWs, Width;
    ItemOver(src, pos, items);
    p := pos + |items.before|;
    q := p + Width(items.value);
    r := q + |items.after|;
  }

  lemma NthStep(src: string, pos: nat, p: nat, index: nat)
    requires pos <= |src| && p == SkipWs(src, pos) && p <= |src| && ParseValue(src, p).Ok?
    ensures var v := ParseValue(src, p);
      var r := SkipWs(src, v.end);
      NthFrom(src, pos, index) ==
      if index == 0 then Val(v) else if At(src, r) == ',' then NthFrom(src, r + 1, index - 1) else NULL_VAL
  {
    hide ParseValue, SkipWs;
  }

  lemma {:induction false} LookupOfMembers(src: string, pos: nat, members: Members, key: string)
    requires members.Member? && LegalMembers(members) && SpellsMembers(src, pos, members)
    requires At(src, pos + MembersWidth(members)) == '}'
    ensures pos <= |src|
    ensures GetFrom(src, pos, key) ==
            if HasKey(members, key) then SpanOf(pos + LookupOffset(members, key), Lookup(members, key)) else NULL_VAL
    decreases members
  {
    hide GetFrom, SpellsMembers, LegalMembers, MembersWidth, MemberWidth, KeyWidth, SpanOf, At;
    var r := MemberFound(src, pos, members, key);
    if members.rest.Member? && members.key != key {
      LookupOfMembers(src, r + 1, members.rest, key);
    }
  }

  /** One member of the list: the key is found here, or looked for behind the comma. */
  lemma MemberFound(src: string, pos: nat, members: Members, key: string) returns (r: nat)
    requires members.Member? && LegalMembers(members) && SpellsMembers(src, pos, members)
    requires At(src, pos + MembersWidth(members)) == '}'
    ensures pos <= |src| && r == pos + MemberWidth(members)
    ensures members.rest.Member? ==>
              r + 1 <= |src| && LegalMembers(members.rest) && SpellsMembers(src, r + 1, members.rest) &&
              At(src, r + 1 + MembersWidth(members.rest)) == '}'
    ensures GetFrom(src, pos, key) ==
            if members.key == key then SpanOf(pos + KeyWidth(members), members.value)
            else if members.rest.Member? then GetFrom(src, r + 1, key) else NULL_VAL
  {
    hide ParseValue, Spells, Legal, KindOf, Width, KeyWidth, GetKey, SkipWs, HasBytes, GetFrom, SpellsMembers,
         LegalMembers, MembersWidth, MemberWidth;
    var k, q := KeyFound(src, pos, members);
    var end, next := MemberOver(src, pos, members);
    r := next;
    GetStep(src, pos, k, q, pos + KeyWidth(members), key);
    NextMember(src, pos, members);
    if members.rest.Member? { CommaIsInside(src, r); }
  }

  lemma NextMember(src: string, pos: nat, members: Members)
    requires members.Member? && LegalMembers(members) && SpellsMembers(src, pos, members)
    requires At(src, pos + MembersWidth(members)) == '}'
    ensures var r := pos + MemberWidth(members);
      members.rest.Member? ==>
        LegalMembers(members.rest) && SpellsMembers(src, r + 1, members.rest) &&
        At(src, r + 1 + MembersWidth(members.rest)) == '}'
  {
    hide Spells, Legal, Width, SpellsKey;
  }

  lemma GetStep(src: string, pos: nat, k: Parse, q: nat, p: nat, key: string)
    requires pos <= |src| && k == GetKey(src, pos) && k.Ok? && q == SkipWs(src, k.end) && At(src, q) == ':'
    requires p == SkipWs(src, q + 1) && p <= |src| && ParseValue(src, p).Ok?
    ensures var v := ParseValue(src, p);
      var r := SkipWs(src, v.end);
      GetFrom(src, pos, key) ==
      if HasBytes(src, k, key) then Val(v)
      else if At(src, r) == ',' then GetFrom(src, r + 1, key) else NULL_VAL
  {
    hide ParseValue, GetKey, SkipWs;
  }

  /** The lookup's view of a member: the key's bytes, the colon, the value. */
  lemma KeyFound(src: string, pos: nat, m: Members) returns (k: Parse, q: nat)
    requires m.Member? && LegalMembers(m) && SpellsMembers(src, pos, m)
    ensures pos <= |src| && k == GetKey(src, pos) && k.Ok? && q == SkipWs(src, k.end)
    ensures forall key :: HasBytes(src, k, key) <==> m.key == key
    ensures At(src, q) == ':' && SkipWs(src, q + 1) == pos + KeyWidth(m)
  {
    hide Spells, Legal, SpellsMembers, LegalMembers, Starts, AllWs, IsBody, SkipWs, SkipBody, ParseString, HasBytes;
    assert SpellsKey(src, pos, m) && Spells(src, pos + KeyWidth(m), m.value) && Legal(m.value) && IsBody(m.key)
      && AllWs(m.before) && AllWs(m.afterKey) && AllWs(m.beforeValue) by {
      MemberParts(src, pos, m);
    }
    var p := pos + |m.before|;
    WsOver(src, pos, m.before);
    QuotedOver(src, p, m.key);
    k := GetKey(src, pos);
    QuotedBytes(src, p, m.key, k);
    WsOver(src, k.end, m.afterKey);
    q := SkipWs(src, k.end);
    SpelledIsNotWs(src, pos + KeyWidth(m), m.value);
    WsOver(src, q + 1, m.beforeValue);
  }

  lemma QuotedBytes(src: string, pos: nat, body: string, k: Parse)
    requires SpellsQuoted(src, pos, body) && k == Ok(STRING, pos, pos + |body| + 2)
    ensures forall key :: HasBytes(src, k, key) <==> body == key
  {
  }

  lemma MemberParts(src: string, pos: nat, m: Members)
    requires m.Member? && LegalMembers(m) && SpellsMembers(src, pos, m)
    ensures SpellsKey(src, pos, m) && Spells(src, pos + KeyWidth(m), m.value) && Legal(m.value) && IsBody(m.key)
    ensures AllWs(m.before) && AllWs(m.afterKey) && AllWs(m.beforeValue)
  {
  }

  lemma SpanAt(pos: nat, v: Json)
    ensures SpanOf(pos, v).kind == KindOf(v) && SpanOf(pos, v).start == pos
  {
  }

  /** On an array's span the length is the number of elements and an index gives the element's own span. */
  lemma ArrayQueries(src: string, pos: nat, v: Json, index: int)
    requires v.Array? && Legal(v) && Spells(src, pos, v)
    ensures pos < |src|
    ensures ArrayLen(src, SpanOf(pos, v)) == Length(v.items)
    ensures ArrayGet(src, SpanOf(pos, v), index) ==
            if 0 <= index < Length(v.items) then SpanOf(pos + 1 + NthOffset(v.items, index), Nth(v.items, index))
            else NULL_VAL
  {
    hide NthFrom, CountFrom, Spells, Legal, SpellsItems, LegalItems, SkipWs, ItemsWidth, Starts, AllWs, SpanOf;
    ArrayShape(src, pos, v);
    SpanAt(pos, v);
    if v.items == NoItem {
      NoItemsWidth();
      WsOver(src, pos + 1, v.pad);
    } else {
      ItemsBegin(src, pos + 1, v.items);
      CountOfItems(src, pos + 1, v.items);
      if index >= 0 {
        NthOfItems(src, pos + 1, v.items, index);
      }
    }
  }

  lemma ItemsBegin(src: string, pos: nat, items: Items)
    requires items.Item? && LegalItems(items) && SpellsItems(src, pos, items)
    ensures At(src, SkipWs(src, pos)) != ']'
  {
    hide Spells, Legal, SkipWs, Starts, AllWs;
    ItemShape(src, pos, items);
    SpelledIsNotWs(src, pos + |items.before|, items.value);
    WsOver(src, pos, items.before);
  }

  lemma MembersBegin(src: string, pos: nat, m: Members)
    requires m.Member? && LegalMembers(m) && SpellsMembers(src, pos, m)
    ensures At(src, SkipWs(src, pos)) == '"'
  {
    hide Spells, Legal;
    MemberParts(src, pos, m);
    WsOver(src, pos, m.before);
  }

  /** On an object's span a lookup gives the span of the first member whose key has these bytes, or null. */
  lemma ObjectQuery(src: string, pos: nat, v: Json, key: string)
    requires v.Object? && Legal(v) && Spells(src, pos, v)
    ensures pos < |src|
    ensures Get(src, SpanOf(pos, v), key) ==
            if HasKey(v.members, key) then SpanOf(pos + 1 + LookupOffset(v.members, key), Lookup(v.members, key))
            else NULL_VAL
  {
    hide GetFrom, Spells, Legal, SpellsMembers, LegalMembers, Width;
    ObjectParts(src, pos, v);
    if v.members.Member? {
      LookupOfMembers(src, pos + 1, v.members, key);
    }
  }

  lemma ObjectParts(src: string, pos: nat, v: Json)
    requires v.Object? && Legal(v) && Spells(src, pos, v)
    ensures pos < |src|
    ensures At(src, SkipWs(src, pos + 1)) == if v.members == NoMember then '}' else '"'
    ensures v.members.Member? ==>
              LegalMembers(v.members) && SpellsMembers(src, pos + 1, v.members) &&
              At(src, pos + 1 + MembersWidth(v.members)) == '}'
  {
    hide Spells, Legal, LegalMembers, SpellsMembers, Starts, AllWs, SkipWs;
    ObjectShape(src, pos, v);
    if v.members == NoMember {
      WsOver(src, pos + 1, v.pad);
    } else {
      MembersBegin(src, pos + 1, v.members);
    }
  }

  // ---------------------------------------------------------------- the queries as they run

  method JsonArrayLen(src: string, arr: Span) returns (count: nat)
    requires arr.start < |src|
    ensures count == ArrayLen(src, arr)
  {
    hide ParseValue;
    count := 0;
    if arr.kind != ARRAY {
      return;
    }
    var pos := SkipWhitespace(src, arr.start + 1);
    if At(src, pos) == ']' {
      return;
    }
    SkipWsAgain(src, arr.start + 1);
    var more := true;
    while more
      invariant pos <= |src|
      invariant ArrayLen(src, arr) == count + if more then CountFrom(src, pos) else 0
      decreases |src| - pos, more
    {
      pos := SkipWhitespace(src, pos);
      var v := ReadValue(src, pos);
      if v.Err? {
        return;
      }
      count := count + 1;
      pos := SkipWhitespace(src, v.end);
      more := At(src, pos) == ',';
      if more {
        pos := pos + 1;
      }
    }
  }

  method JsonArrayGet(src: string, arr: Span, index: int) returns (r: Span)
    requires arr.start < |src|
    ensures r == ArrayGet(src, arr, index)
  {
    hide ParseValue;
    if arr.kind != ARRAY {
      return NULL_VAL;
    }
    var pos := SkipWhitespace(src, arr.start + 1);
    if At(src, pos) == ']' {
      return NULL_VAL;
    }
    SkipWsAgain(src, arr.start + 1);
    var cur := 0;
    while true
      invariant pos <= |src| && cur >= 0
      invariant index >= 0 ==> cur <= index && ArrayGet(src, arr, index) == NthFrom(src, pos, index - cur)
      decreases |src| - pos
    {
      pos := SkipWhitespace(src, pos);
      var v := ReadValue(src, pos);
      if v.Err? {
        return NULL_VAL;
      }
      if cur == index {
        return Val(v);
      }
      cur := cur + 1;
      pos := SkipWhitespace(src, v.end);
      if At(src, pos) != ',' {
        return NULL_VAL;
      }
      pos := pos + 1;
    }
  }

  method JsonGet(src: string, obj: Span, key: string) returns (r: Span)
    requires obj.start < |src|
    ensures r == Get(src, obj, key)
  {
    hide ParseValue, ParseString, SkipWs, HasBytes;
    if obj.kind != OBJECT {
      return NULL_VAL;
    }
    var pos := SkipWhitespace(src, obj.start + 1);
    if At(src, pos) == '}' {
      return NULL_VAL;
    }
    GetSkipsWs(src, obj.start + 1, key);
    var done := false;
    r := NULL_VAL;
    while !done
      invariant pos <= |src| && Get(src, obj, key) == if done then r else GetFrom(src, pos, key)
      decreases |src| - pos, !done
    {
      hide Get, GetFrom;
      done, r, pos := GetMember(src, pos, key);
    }
  }

  /** One member of the lookup: an answer, or the position of the next member. */
  method GetMember(src: string, pos: nat, key: string) returns (done: bool, r: Span, next: nat)
    requires pos <= |src|
    ensures pos <= next <= |src| && (!done ==> pos < next)
    ensures GetFrom(src, pos, key) == if done then r else GetFrom(src, next, key)
  {
    hide ParseValue, ParseString, SkipWs, HasBytes;
    var p := SkipWhitespace(src, pos);
    var k := ReadString(src, p);
    if k.Err? {
      return true, NULL_VAL, pos;
    }
    var q := SkipWhitespace(src, k.end);
    if At(src, q) != ':' {
      return true, NULL_VAL, pos;
    }
    p := SkipWhitespace(src, q + 1);
    var v := ReadValue(src, p);
    if HasBytes(src, k, key) {
      return true, Val(v), pos;
    }
    if v.Err? {
      return true, NULL_VAL, pos;
    }
    q := SkipWhitespace(src, v.end);
    if At(src, q) != ',' {
      return true, NULL_VAL, pos;
    }
    return false, NULL_VAL, q + 1;
  }

  lemma GetSkipsWs(src: string, pos: nat, key: string)
    requires pos <= |src|
    ensures GetFrom(src, SkipWs(src, pos), key) == GetFrom(src, pos, key)
  {
    hide ParseValue, ParseString, SkipWs;
    SkipWsAgain(src, pos);
    assert GetKey(src, SkipWs(src, pos)) == GetKey(src, pos);
  }
}
