/**
 The zero-copy parser: a value is a span of the source text. A cursor that stands at
 or past the end of the text reads the terminating zero byte. The parser accepts
 exactly the texts of the trees of JsonTree, and the span it returns is the tree's text.
 */
module JsonSpan {
  import opened JsonTree
  import opened Options

  function At(src: string, pos: nat): char {
    if pos < |src| then src[pos] else '\0'
  }

  datatype Parse = Ok(kind: Kind, start: nat, end: nat) | Err(error: string)

  function SkipWs(src: string, pos: nat): (p: nat)
    ensures p >= pos && (pos <= |src| ==> p <= |src|)
    ensures !IsWs(At(src, p))
    decreases |src| - pos
  {
    if IsWs(At(src, pos)) then SkipWs(src, pos + 1) else pos
  }

  function SkipDigits(src: string, pos: nat): (p: nat)
    ensures p >= pos && (pos <= |src| ==> p <= |src|)
    ensures !IsDigit(At(src, p))
    decreases |src| - pos
  {
    if IsDigit(At(src, pos)) then SkipDigits(src, pos + 1) else pos
  }

  /** From inside a string to its closing quote, or to where the text ends. */
  function SkipBody(src: string, pos: nat): (p: nat)
    ensures p >= pos
    ensures At(src, p) == '\0' || At(src, p) == '"'
    decreases |src| - pos
  {
    if At(src, pos) == '\0' || At(src, pos) == '"' then pos
    else if At(src, pos) == '\\' then SkipBody(src, pos + 2)
    else SkipBody(src, pos + 1)
  }

  function ParseString(src: string, pos: nat): (r: Parse)
    ensures r.Ok? ==> r.start == pos && pos + 1 < r.end <= |src|
  {
    var p := SkipBody(src, pos + 1);
    if At(src, p) == '"' then Ok(STRING, pos, p + 1) else Err("unclosed string")
  }

  function SkipFraction(src: string, pos: nat): nat {
    if At(src, pos) == '.' then SkipDigits(src, pos + 1) else pos
  }

  function SkipExponent(src: string, pos: nat): nat {
    if At(src, pos) == 'e' || At(src, pos) == 'E' then
      SkipDigits(src, if At(src, pos + 1) == '+' || At(src, pos + 1) == '-' then pos + 2 else pos + 1)
    else pos
  }

  function SkipNumber(src: string, pos: nat): nat {
    SkipExponent(src, SkipFraction(src, SkipDigits(src, if At(src, pos) == '-' then pos + 1 else pos)))
  }

  predicate Starts(src: string, pos: nat, text: string) {
    pos + |text| <= |src| && src[pos..pos + |text|] == text
  }

  function ParseWord(src: string, pos: nat, word: string, kind: Kind, error: string): Parse {
    if Starts(src, pos, word) then Ok(kind, pos, pos + |word|) else Err(error)
  }

  function ParseValue(src: string, pos: nat): (r: Parse)
    requires pos <= |src|
    ensures r.Ok? ==> pos <= r.start < r.end <= |src|
    decreases |src| - pos, 1
  {
    var p := SkipWs(src, pos);
    var c := At(src, p);
    if c == '"' then ParseString(src, p)
    else if c == '{' then ParseObject(src, p)
    else if c == '[' then ParseArray(src, p)
    else if c == 't' then ParseWord(src, p, "true", BOOL, "expected 'true'")
    else if c == 'f' then ParseWord(src, p, "false", BOOL, "expected 'false'")
    else if c == 'n' then ParseWord(src, p, "null", NULL, "expected 'null'")
    else if c == '-' || IsDigit(c) then
      NumberAdvances(src, p);
      Ok(NUMBER, p, SkipNumber(src, p))
    else Err("unexpected character")
  }

  function ParseArray(src: string, pos: nat): (r: Parse)
    requires pos < |src|
    ensures r.Ok? ==> r.start == pos && pos < r.end <= |src|
    decreases |src| - pos, 0
  {
    var p := SkipWs(src, pos + 1);
    if At(src, p) == ']' then Ok(ARRAY, pos, p + 1) else ParseItems(src, pos, p)
  }

  function ParseItems(src: string, start: nat, pos: nat): (r: Parse)
    requires start < pos <= |src|
    ensures r.Ok? ==> r.start == start && pos < r.end <= |src|
    decreases |src| - pos, 2
  {
    var v := ParseValue(src, SkipWs(src, pos));
    if v.Err? then v
    else
      var p := SkipWs(src, v.end);
      if At(src, p) == ',' then ParseItems(src, start, p + 1)
      else if At(src, p) == ']' then Ok(ARRAY, start, p + 1)
      else Err("expected ',' or ']'")
  }

  function ParseObject(src: string, pos: nat): (r: Parse)
    requires pos < |src|
    ensures r.Ok? ==> r.start == pos && pos < r.end <= |src|
    decreases |src| - pos, 0
  {
    var p := SkipWs(src, pos + 1);
    if At(src, p) == '}' then Ok(OBJECT, pos, p + 1) else ParseMembers(src, pos, p)
  }

  /** A key, its colon, and the position where the value is looked for. */
  function ParseKey(src: string, pos: nat): (r: Parse)
    requires pos <= |src|
    ensures r.Ok? ==> pos < r.end <= |src|
  {
    var p := SkipWs(src, pos);
    if At(src, p) != '"' then Err("expected string key")
    else
      var k := ParseString(src, p);
      if k.Err? then k
      else
        var q := SkipWs(src, k.end);
        if At(src, q) != ':' then Err("expected ':'") else Ok(STRING, p, SkipWs(src, q + 1))
  }

  function ParseMembers(src: string, start: nat, pos: nat): (r: Parse)
    requires start < pos <= |src|
    ensures r.Ok? ==> r.start == start && pos < r.end <= |src|
    decreases |src| - pos, 2
  {
    var k := ParseKey(src, pos);
    if k.Err? then k
    else
      var v := ParseValue(src, k.end);
      if v.Err? then v
      else
        var p := SkipWs(src, v.end);
        if At(src, p) == ',' then ParseMembers(src, start, p + 1)
        else if At(src, p) == '}' then Ok(OBJECT, start, p + 1)
        else Err("expected ',' or '}'")
  }

  lemma NumberAdvances(src: string, pos: nat)
    requires At(src, pos) == '-' || IsDigit(At(src, pos))
    ensures pos < SkipNumber(src, pos) <= |src|
  {
  }

  function ParseRoot(src: string): Parse {
    var r := ParseValue(src, 0);
    if r.Err? then r
    else if At(src, SkipWs(src, r.end)) != '\0' then Err("trailing content")
    else r
  }

  // ---------------------------------------------------------------- a tree's text, by positions

  function NumeralWidth(n: Numeral): nat {
    (if n.minus then 1 else 0) + |n.whole| + (if n.fraction.Some? then 1 + |n.fraction.value| else 0) +
    if n.exponent.Some? then 1 + |n.exponent.value.sign| + |n.exponent.value.digits| else 0
  }

  function Width(v: Json): nat {
    match v
    case Null => 4
    case Bool(b) => if b then 4 else 5
    case Number(n) => NumeralWidth(n)
    case String(body) => |body| + 2
    case Array(pad, items) => |pad| + ItemsWidth(items) + 2
    case Object(pad, members) => |pad| + MembersWidth(members) + 2
  }

  function ItemsWidth(items: Items): nat {
    if items.NoItem? then 0
    else |items.before| + Width(items.value) + |items.after| +
         if items.rest.NoItem? then 0 else 1 + ItemsWidth(items.rest)
  }

  /** From the start of an element to the comma or bracket after it. */
  function ItemWidth(items: Items): nat
    requires items.Item?
  {
    |items.before| + Width(items.value) + |items.after|
  }

  function MemberWidth(members: Members): nat
    requires members.Member?
  {
    KeyWidth(members) + Width(members.value) + |members.after|
  }

  /** From the start of a member to its value. */
  function KeyWidth(m: Members): nat
    requires m.Member?
  {
    |m.before| + |m.key| + 2 + |m.afterKey| + 1 + |m.beforeValue|
  }

  function MembersWidth(members: Members): nat {
    if members.NoMember? then 0
    else KeyWidth(members) + Width(members.value) + |members.after| +
         if members.rest.NoMember? then 0 else 1 + MembersWidth(members.rest)
  }

  predicate SpellsQuoted(src: string, pos: nat, body: string) {
    At(src, pos) == '"' && Starts(src, pos + 1, body) && At(src, pos + 1 + |body|) == '"'
  }

  predicate SpellsFraction(src: string, pos: nat, f: Option<string>) {
    f.Some? ==> At(src, pos) == '.' && Starts(src, pos + 1, f.value)
  }

  predicate SpellsExponent(src: string, pos: nat, e: Option<Exponent>) {
    e.Some? ==>
      && At(src, pos) == (if e.value.upper then 'E' else 'e')
      && Starts(src, pos + 1, e.value.sign) && Starts(src, pos + 1 + |e.value.sign|, e.value.digits)
  }

  predicate SpellsNumeral(src: string, pos: nat, n: Numeral) {
    var p := if n.minus then pos + 1 else pos;
    var q := p + |n.whole|;
    && (n.minus ==> At(src, pos) == '-')
    && Starts(src, p, n.whole)
    && SpellsFraction(src, q, n.fraction)
    && SpellsExponent(src, if n.fraction.Some? then q + 1 + |n.fraction.value| else q, n.exponent)
  }

  /** The text of v stands in src at pos: layout, strings and numbers included. */
  predicate Spells(src: string, pos: nat, v: Json)
    decreases v
  {
    match v
    case Null => Starts(src, pos, "null")
    case Bool(b) => Starts(src, pos, if b then "true" else "false")
    case Number(n) => SpellsNumeral(src, pos, n)
    case String(body) => SpellsQuoted(src, pos, body)
    case Array(pad, items) =>
      && At(src, pos) == '[' && Starts(src, pos + 1, pad) && SpellsItems(src, pos + 1 + |pad|, items)
      && At(src, pos + 1 + |pad| + ItemsWidth(items)) == ']'
    case Object(pad, members) =>
      && At(src, pos) == '{' && Starts(src, pos + 1, pad) && SpellsMembers(src, pos + 1 + |pad|, members)
      && At(src, pos + 1 + |pad| + MembersWidth(members)) == '}'
  }

  predicate SpellsItems(src: string, pos: nat, items: Items)
    decreases items
  {
    items.Item? ==>
      var p := pos + |items.before|;
      var q := p + Width(items.value);
      && Starts(src, pos, items.before) && Spells(src, p, items.value) && Starts(src, q, items.after)
      && (items.rest.Item? ==> At(src, q + |items.after|) == ',' && SpellsItems(src, q + |items.after| + 1, items.rest))
  }

  predicate SpellsKey(src: string, pos: nat, m: Members)
    requires m.Member?
  {
    var p := pos + |m.before|;
    var q := p + |m.key| + 2;
    && Starts(src, pos, m.before) && SpellsQuoted(src, p, m.key) && Starts(src, q, m.afterKey)
    && At(src, q + |m.afterKey|) == ':' && Starts(src, q + |m.afterKey| + 1, m.beforeValue)
  }

  predicate SpellsMembers(src: string, pos: nat, members: Members)
    decreases members
  {
    members.Member? ==>
      var p := pos + KeyWidth(members);
      var q := p + Width(members.value);
      && SpellsKey(src, pos, members) && Spells(src, p, members.value) && Starts(src, q, members.after)
      && (members.rest.Member? ==>
            At(src, q + |members.after|) == ',' && SpellsMembers(src, q + |members.after| + 1, members.rest))
  }

  // ---------------------------------------------------------------- every rendered tree is parsed

  /** What may stand right after a value in a text. */
  predicate Follows(c: char) {
    IsWs(c) || c == ',' || c == ']' || c == '}' || c == '\0'
  }

  lemma StartsAt(src: string, pos: nat, text: string)
    requires Starts(src, pos, text) && text != ""
    ensures At(src, pos) == text[0] && Starts(src, pos + 1, text[1..])
  {
    assert src[pos..pos + |text|][0] == text[0];
    assert src[pos..pos + |text|][1..] == src[pos + 1..pos + |text|];
  }

  lemma {:induction false} WsOver(src: string, pos: nat, w: string)
    requires Starts(src, pos, w) && AllWs(w) && !IsWs(At(src, pos + |w|))
    ensures SkipWs(src, pos) == pos + |w|
    decreases |w|
  {
    if w != "" {
      StartsAt(src, pos, w);
      WsOver(src, pos + 1, w[1..]);
    }
  }

  lemma {:induction false} DigitsOver(src: string, pos: nat, digits: string)
    requires Starts(src, pos, digits) && AllDigits(digits) && !IsDigit(At(src, pos + |digits|))
    ensures SkipDigits(src, pos) == pos + |digits|
    decreases |digits|
  {
    if digits != "" {
      StartsAt(src, pos, digits);
      DigitsOver(src, pos + 1, digits[1..]);
    }
  }

  lemma {:induction false} BodyOver(src: string, pos: nat, body: string)
    requires Starts(src, pos, body) && IsBody(body) && At(src, pos + |body|) == '"'
    ensures SkipBody(src, pos) == pos + |body|
    decreases |body|
  {
    if body != "" {
      StartsAt(src, pos, body);
      if body[0] == '\\' {
        StartsAt(src, pos + 1, body[1..]);
        assert body[1..][1..] == body[2..];
        BodyOver(src, pos + 2, body[2..]);
      } else {
        BodyOver(src, pos + 1, body[1..]);
      }
    }
  }

  lemma QuotedOver(src: string, pos: nat, body: string)
    requires SpellsQuoted(src, pos, body) && IsBody(body)
    ensures ParseString(src, pos) == Ok(STRING, pos, pos + |body| + 2)
  {
    hide SkipBody, Starts, IsBody;
    var p := pos + 1;
    BodyOver(src, p, body);
  }

  lemma ExponentOver(src: string, pos: nat, e: Exponent)
    requires SpellsExponent(src, pos, Some(e)) && IsExponent(e)
    requires Follows(At(src, pos + 1 + |e.sign| + |e.digits|))
    ensures SkipExponent(src, pos) == pos + 1 + |e.sign| + |e.digits|
  {
    hide SkipDigits, Starts;
    if e.sign != "" {
      StartsAt(src, pos + 1, e.sign);
    } else if e.digits != "" {
      StartsAt(src, pos + 1, e.digits);
    }
    DigitsOver(src, pos + 1 + |e.sign|, e.digits);
  }

  lemma NumeralOver(src: string, pos: nat, n: Numeral)
    requires SpellsNumeral(src, pos, n) && IsNumeral(n) && Follows(At(src, pos + NumeralWidth(n)))
    ensures At(src, pos) == '-' || IsDigit(At(src, pos))
    ensures SkipNumber(src, pos) == pos + NumeralWidth(n)
  {
    hide SkipDigits, SkipExponent, SkipFraction, Starts;
    var p := if n.minus then pos + 1 else pos;
    var q := p + |n.whole|;
    var r := if n.fraction.Some? then q + 1 + |n.fraction.value| else q;
    ExponentPartOver(src, r, n.exponent);
    FractionOver(src, q, n.fraction);
    assert !IsDigit(At(src, q));
    DigitsOver(src, p, n.whole);
    if n.whole != "" {
      StartsAt(src, p, n.whole);
    }
  }

  lemma ExponentPartOver(src: string, pos: nat, e: Option<Exponent>)
    requires SpellsExponent(src, pos, e) && (e.Some? ==> IsExponent(e.value))
    requires Follows(At(src, if e.Some? then pos + 1 + |e.value.sign| + |e.value.digits| else pos))
    ensures SkipExponent(src, pos) == if e.Some? then pos + 1 + |e.value.sign| + |e.value.digits| else pos
    ensures !IsDigit(At(src, pos)) && At(src, pos) != '.'
  {
    if e.Some? {
      ExponentOver(src, pos, e.value);
    }
  }

  lemma FractionOver(src: string, pos: nat, f: Option<string>)
    requires SpellsFraction(src, pos, f) && (f.Some? ==> AllDigits(f.value))
    requires var c := At(src, if f.Some? then pos + 1 + |f.value| else pos); !IsDigit(c) && c != '.'
    ensures SkipFraction(src, pos) == if f.Some? then pos + 1 + |f.value| else pos
    ensures !IsDigit(At(src, pos))
  {
    if f.Some? {
      DigitsOver(src, pos + 1, f.value);
    }
  }

  lemma SpelledIsNotWs(src: string, pos: nat, v: Json)
    requires Spells(src, pos, v) && Legal(v)
    ensures !IsWs(At(src, pos)) && At(src, pos) != ']' && At(src, pos) != '}'
  {
    if v.Number? && !v.numeral.minus {
      StartsAt(src, pos, v.numeral.whole);
    }
  }

  /**
   The parser reads a legal value in any layout and wherever it stands, and its span
   begins and ends exactly with the value's text.
   */
  lemma {:induction false} ValueOver(src: string, pos: nat, v: Json)
    requires Spells(src, pos, v) && Legal(v) && Follows(At(src, pos + Width(v)))
    ensures pos <= |src| && ParseValue(src, pos) == Ok(KindOf(v), pos, pos + Width(v))
    decreases v, 1
  {
    hide ParseArray, ParseObject, SpellsItems, SpellsMembers, LegalItems, LegalMembers, SpellsNumeral;
    SpelledIsNotWs(src, pos, v);
    match v
    case Null =>
    case Bool(_) =>
    case Number(n) => NumeralOver(src, pos, n);
    case String(body) => QuotedOver(src, pos, body);
    case Array(_, _) => ArrayOver(src, pos, v);
    case Object(_, _) => ObjectOver(src, pos, v);
  }

  /** One level of an array. */
  lemma ArrayShape(src: string, pos: nat, v: Json)
    requires v.Array? && Legal(v) && Spells(src, pos, v)
    ensures pos < |src| && At(src, pos) == '[' && Starts(src, pos + 1, v.pad) && AllWs(v.pad)
    ensures LegalItems(v.items) && SpellsItems(src, pos + 1 + |v.pad|, v.items)
    ensures At(src, pos + 1 + |v.pad| + ItemsWidth(v.items)) == ']'
    ensures v.items.Item? ==> v.pad == ""
    ensures Width(v) == |v.pad| + ItemsWidth(v.items) + 2
  {
    hide LegalItems, SpellsItems, ItemsWidth, Starts, AllWs;
  }

  lemma ObjectShape(src: string, pos: nat, v: Json)
    requires v.Object? && Legal(v) && Spells(src, pos, v)
    ensures pos < |src| && At(src, pos) == '{' && Starts(src, pos + 1, v.pad) && AllWs(v.pad)
    ensures LegalMembers(v.members) && SpellsMembers(src, pos + 1 + |v.pad|, v.members)
    ensures At(src, pos + 1 + |v.pad| + MembersWidth(v.members)) == '}'
    ensures v.members.Member? ==> v.pad == ""
    ensures Width(v) == |v.pad| + MembersWidth(v.members) + 2
  {
    hide LegalMembers, SpellsMembers, MembersWidth, Starts, AllWs;
  }

  /** The first of the items. */
  lemma ItemShape(src: string, pos: nat, items: Items)
    requires items.Item? && LegalItems(items) && SpellsItems(src, pos, items)
    ensures var q := pos + |items.before| + Width(items.value);
      && Starts(src, pos, items.before) && AllWs(items.before)
      && Spells(src, pos + |items.before|, items.value) && Legal(items.value)
      && Starts(src, q, items.after) && AllWs(items.after)
      && (items.rest.Item? ==> At(src, q + |items.after|) == ',')
      && (items.rest.NoItem? ==> ItemsWidth(items) == ItemWidth(items))
  {
    hide Spells, Legal, Starts, AllWs, Width;
  }

  /** The first of the members, from its key on. */
  lemma MemberShape(src: string, pos: nat, m: Members)
    requires m.Member? && LegalMembers(m) && SpellsMembers(src, pos, m)
    ensures Starts(src, pos, m.before) && AllWs(m.before) && At(src, pos + |m.before|) == '"'
  {
    hide Spells, Legal, Starts, AllWs, Width, IsBody;
  }

  lemma {:induction false} ArrayOver(src: string, pos: nat, v: Json)
    requires v.Array? && Spells(src, pos, v) && Legal(v)
    ensures pos < |src| && ParseArray(src, pos) == Ok(ARRAY, pos, pos + Width(v))
    decreases v, 0
  {
    hide ParseItems, ParseValue, SpellsItems, LegalItems, Spells, Legal, Starts, AllWs, Width, ItemsWidth, SkipWs;
    ArrayShape(src, pos, v);
    if v.items == NoItem {
      NoItemsWidth();
      WsOver(src, pos + 1, v.pad);
    } else {
      ItemShape(src, pos + 1, v.items);
      SpelledIsNotWs(src, pos + 1 + |v.items.before|, v.items.value);
      WsOver(src, pos + 1, v.items.before);
      ArrayEnters(src, pos);
      ItemsOver(src, pos, pos + 1, v.items);
    }
  }

  lemma NoItemsWidth()
    ensures ItemsWidth(NoItem) == 0 && MembersWidth(NoMember) == 0
  {
  }

  lemma ArrayEnters(src: string, pos: nat)
    requires pos < |src| && At(src, SkipWs(src, pos + 1)) != ']'
    ensures ParseArray(src, pos) == ParseItems(src, pos, pos + 1)
  {
    assert SkipWs(src, SkipWs(src, pos + 1)) == SkipWs(src, pos + 1);
  }

  lemma {:induction false} ItemsOver(src: string, start: nat, pos: nat, items: Items)
    requires start < pos && items.Item? && LegalItems(items) && SpellsItems(src, pos, items)
    requires At(src, pos + ItemsWidth(items)) == ']'
    ensures pos <= |src| && ParseItems(src, start, pos) == Ok(ARRAY, start, pos + ItemsWidth(items) + 1)
    decreases items, 2
  {
    hide ParseValue, SkipWs, Spells, Starts, Legal, Width;
    ItemsStep(src, start, pos, items);
    if items.rest.Item? {
      ItemsOver(src, start, pos + ItemWidth(items) + 1, items.rest);
    }
  }

  lemma {:induction false} ItemsStep(src: string, start: nat, pos: nat, items: Items)
    requires start < pos && items.Item? && LegalItems(items) && SpellsItems(src, pos, items)
    requires At(src, pos + ItemsWidth(items)) == ']'
    ensures var r := pos + ItemWidth(items);
      && pos <= |src| && r < |src|
      && ParseItems(src, start, pos) ==
         if items.rest.Item? then ParseItems(src, start, r + 1) else Ok(ARRAY, start, r + 1)
    decreases items, 1
  {
    hide ParseValue, SkipWs, Spells, Legal, Starts;
    var p := pos + |items.before|;
    var q := p + Width(items.value);
    var r := q + |items.after|;
    ItemOver(src, pos, items);
    ItemsGo(src, start, pos, p, q, r, items.rest.Item?);
  }

  /** One element: its value is parsed and the cursor comes to the comma or bracket after it. */
  lemma {:induction false} ItemOver(src: string, pos: nat, items: Items)
    requires items.Item? && LegalItems(items) && SpellsItems(src, pos, items)
    requires At(src, pos + ItemsWidth(items)) == ']'
    ensures var p := pos + |items.before|;
      var q := p + Width(items.value);
      && pos <= p <= |src| && SkipWs(src, pos) == p
      && ParseValue(src, p) == Ok(KindOf(items.value), p, q)
      && SkipWs(src, q) == q + |items.after|
    decreases items, 0
  {
    hide Spells, Legal, ParseItems, SpellsItems, LegalItems, Starts, AllWs, Width, ItemsWidth, ItemWidth, ParseValue,
         SkipWs, KindOf;
    var p := pos + |items.before|;
    ItemShape(src, pos, items);
    ItemEnds(items);
    SpelledIsNotWs(src, p, items.value);
    WsOver(src, pos, items.before);
    AfterValue(src, p + Width(items.value), items.after);
    ValueOver(src, p, items.value);
  }

  lemma ItemEnds(items: Items)
    requires items.Item?
    ensures ItemWidth(items) == |items.before| + Width(items.value) + |items.after|
  {
  }

  lemma ItemsGo(src: string, start: nat, pos: nat, p: nat, q: nat, r: nat, more: bool)
    requires start < pos <= |src| && SkipWs(src, pos) == p && p <= |src|
    requires ParseValue(src, p).Ok? && ParseValue(src, p).end == q
    requires SkipWs(src, q) == r && At(src, r) == (if more then ',' else ']')
    ensures ParseItems(src, start, pos) == if more then ParseItems(src, start, r + 1) else Ok(ARRAY, start, r + 1)
  {
  }

  /** White space up to a comma or a closing bracket: the value before it has ended. */
  lemma AfterValue(src: string, pos: nat, w: string)
    requires Starts(src, pos, w) && AllWs(w)
    requires At(src, pos + |w|) == ',' || At(src, pos + |w|) == ']' || At(src, pos + |w|) == '}'
    ensures SkipWs(src, pos) == pos + |w| && Follows(At(src, pos))
  {
    WsOver(src, pos, w);
    if w != "" {
      StartsAt(src, pos, w);
    }
  }

  lemma {:induction false} ObjectOver(src: string, pos: nat, v: Json)
    requires v.Object? && Spells(src, pos, v) && Legal(v)
    ensures pos < |src| && ParseObject(src, pos) == Ok(OBJECT, pos, pos + Width(v))
    decreases v, 0
  {
    hide ParseMembers, ParseValue, SpellsMembers, LegalMembers, Spells, Legal, Starts, AllWs, Width, MembersWidth, SkipWs;
    ObjectShape(src, pos, v);
    if v.members == NoMember {
      NoItemsWidth();
      WsOver(src, pos + 1, v.pad);
    } else {
      MemberShape(src, pos + 1, v.members);
      WsOver(src, pos + 1, v.members.before);
      ObjectEnters(src, pos);
      MembersOver(src, pos, pos + 1, v.members);
    }
  }

  lemma ObjectEnters(src: string, pos: nat)
    requires pos < |src| && At(src, SkipWs(src, pos + 1)) != '}'
    ensures ParseObject(src, pos) == ParseMembers(src, pos, pos + 1)
  {
    assert SkipWs(src, SkipWs(src, pos + 1)) == SkipWs(src, pos + 1);
    assert ParseKey(src, SkipWs(src, pos + 1)) == ParseKey(src, pos + 1);
  }

  lemma KeyOver(src: string, pos: nat, m: Members)
    requires m.Member? && LegalMembers(m) && SpellsKey(src, pos, m) && Spells(src, pos + KeyWidth(m), m.value)
    ensures pos <= |src| && ParseKey(src, pos).Ok? && ParseKey(src, pos).end == pos + KeyWidth(m)
  {
    hide Spells, Legal, ParseString, IsBody, SkipWs, Starts;
    var p := pos + |m.before|;
    var q := p + |m.key| + 2;
    WsOver(src, pos, m.before);
    QuotedOver(src, p, m.key);
    WsOver(src, q, m.afterKey);
    SpelledIsNotWs(src, pos + KeyWidth(m), m.value);
    WsOver(src, q + |m.afterKey| + 1, m.beforeValue);
  }

  lemma {:induction false} MembersOver(src: string, start: nat, pos: nat, members: Members)
    requires start < pos && members.Member? && LegalMembers(members) && SpellsMembers(src, pos, members)
    requires At(src, pos + MembersWidth(members)) == '}'
    ensures pos <= |src| && ParseMembers(src, start, pos) == Ok(OBJECT, start, pos + MembersWidth(members) + 1)
    decreases members, 2
  {
    hide ParseValue, ParseKey, SkipWs, Spells, SpellsKey, Starts, Legal, Width;
    MembersStep(src, start, pos, members);
    if members.rest.Member? {
      MembersOver(src, start, pos + MemberWidth(members) + 1, members.rest);
    }
  }

  lemma {:induction false} MembersStep(src: string, start: nat, pos: nat, members: Members)
    requires start < pos && members.Member? && LegalMembers(members) && SpellsMembers(src, pos, members)
    requires At(src, pos + MembersWidth(members)) == '}'
    ensures var r := pos + MemberWidth(members);
      && pos <= |src| && r < |src|
      && ParseMembers(src, start, pos) ==
         if members.rest.Member? then ParseMembers(src, start, r + 1) else Ok(OBJECT, start, r + 1)
    decreases members, 1
  {
    hide ParseValue, ParseKey, SkipWs, Spells, SpellsKey, Legal, Starts;
    KeyOver(src, pos, members);
    var q, r := MemberOver(src, pos, members);
    MembersGo(src, start, pos, pos + KeyWidth(members), q, r, members.rest.Member?);
  }

  /** The value of a member, and what stands after it. */
  lemma {:induction false} MemberOver(src: string, pos: nat, members: Members) returns (q: nat, r: nat)
    requires members.Member? && LegalMembers(members) && SpellsMembers(src, pos, members)
    requires At(src, pos + MembersWidth(members)) == '}'
    ensures pos + KeyWidth(members) <= |src|
    ensures ParseValue(src, pos + KeyWidth(members)) == Ok(KindOf(members.value), pos + KeyWidth(members), q)
    ensures q == pos + KeyWidth(members) + Width(members.value)
    ensures SkipWs(src, q) == r && r == pos + MemberWidth(members)
    ensures At(src, r) == if members.rest.Member? then ',' else '}'
    decreases members, 0
  {
    hide Spells, Legal, ParseMembers, Starts, AllWs;
    var p := pos + KeyWidth(members);
    q := p + Width(members.value);
    r := q + |members.after|;
    AfterValue(src, q, members.after);
    ValueOver(src, p, members.value);
  }

  lemma MembersGo(src: string, start: nat, pos: nat, p: nat, q: nat, r: nat, more: bool)
    requires start < pos <= |src| && ParseKey(src, pos).Ok? && ParseKey(src, pos).end == p && p <= |src|
    requires ParseValue(src, p).Ok? && ParseValue(src, p).end == q
    requires SkipWs(src, q) == r && At(src, r) == (if more then ',' else '}')
    ensures ParseMembers(src, start, pos) == if more then ParseMembers(src, start, r + 1) else Ok(OBJECT, start, r + 1)
  {
  }

  // ---------------------------------------------------------------- what the parser accepts is a tree's text

  /** The white space the parser skips. */
  lemma {:induction false} WsSound(src: string, pos: nat)
    requires pos <= |src|
    ensures AllWs(src[pos..SkipWs(src, pos)])
    decreases |src| - pos
  {
    if IsWs(At(src, pos)) {
      WsSound(src, pos + 1);
      assert src[pos..SkipWs(src, pos)] == [src[pos]] + src[pos + 1..SkipWs(src, pos)];
    }
  }

  lemma {:induction false} DigitsSound(src: string, pos: nat)
    requires pos <= |src|
    ensures AllDigits(src[pos..SkipDigits(src, pos)])
    decreases |src| - pos
  {
    if IsDigit(At(src, pos)) {
      DigitsSound(src, pos + 1);
      assert src[pos..SkipDigits(src, pos)] == [src[pos]] + src[pos + 1..SkipDigits(src, pos)];
    }
  }

  lemma {:induction false} BodySound(src: string, pos: nat)
    requires pos <= |src| && At(src, SkipBody(src, pos)) == '"'
    ensures SkipBody(src, pos) < |src| && IsBody(src[pos..SkipBody(src, pos)])
    decreases |src| - pos
  {
    var p := SkipBody(src, pos);
    if At(src, pos) == '\\' {
      if pos + 2 <= |src| {
        BodySound(src, pos + 2);
        assert src[pos..p][2..] == src[pos + 2..p];
      }
    } else if At(src, pos) != '"' {
      BodySound(src, pos + 1);
      assert src[pos..p][1..] == src[pos + 1..p];
    }
  }

  lemma QuotedSound(src: string, pos: nat) returns (body: string)
    requires At(src, pos) == '"' && ParseString(src, pos).Ok?
    ensures IsBody(body) && SpellsQuoted(src, pos, body) && ParseString(src, pos).end == pos + |body| + 2
  {
    BodySound(src, pos + 1);
    body := src[pos + 1..SkipBody(src, pos + 1)];
  }

  lemma FractionSound(src: string, pos: nat) returns (f: Option<string>)
    requires pos <= |src|
    ensures SpellsFraction(src, pos, f) && (f.Some? ==> AllDigits(f.value))
    ensures SkipFraction(src, pos) == if f.Some? then pos + 1 + |f.value| else pos
    ensures SkipFraction(src, pos) <= |src|
  {
    f := None;
    if At(src, pos) == '.' {
      DigitsSound(src, pos + 1);
      f := Some(src[pos + 1..SkipDigits(src, pos + 1)]);
    }
  }

  lemma ExponentSound(src: string, pos: nat) returns (e: Option<Exponent>)
    requires pos <= |src|
    ensures SpellsExponent(src, pos, e) && (e.Some? ==> IsExponent(e.value))
    ensures SkipExponent(src, pos) == if e.Some? then pos + 1 + |e.value.sign| + |e.value.digits| else pos
  {
    e := None;
    if At(src, pos) == 'e' || At(src, pos) == 'E' {
      var c := At(src, pos + 1);
      var sign := if c == '+' || c == '-' then [c] else [];
      var p := pos + 1 + |sign|;
      DigitsSound(src, p);
      e := Some(Exponent(At(src, pos) == 'E', sign, src[p..SkipDigits(src, p)]));
    }
  }

  lemma NumeralSound(src: string, pos: nat) returns (n: Numeral)
    requires At(src, pos) == '-' || IsDigit(At(src, pos))
    ensures IsNumeral(n) && SpellsNumeral(src, pos, n) && SkipNumber(src, pos) == pos + NumeralWidth(n)
  {
    var minus := At(src, pos) == '-';
    var p := if minus then pos + 1 else pos;
    DigitsSound(src, p);
    var q := SkipDigits(src, p);
    var f := FractionSound(src, q);
    var e := ExponentSound(src, SkipFraction(src, q));
    n := Numeral(minus, src[p..q], f, e);
  }

  /** Every span the parser returns is the text of a legal tree of that kind, after white space only. */
  lemma {:induction false} ValueSound(src: string, pos: nat) returns (v: Json)
    requires pos <= |src| && ParseValue(src, pos).Ok?
    ensures Legal(v) && Spells(src, SkipWs(src, pos), v)
    ensures ParseValue(src, pos) == Ok(KindOf(v), SkipWs(src, pos), SkipWs(src, pos) + Width(v))
    decreases |src| - pos, 1
  {
    var p := SkipWs(src, pos);
    var c := At(src, p);
    if c == '"' {
      var body := QuotedSound(src, p);
      v := String(body);
    } else if c == '{' {
      v := ObjectSound(src, p);
    } else if c == '[' {
      v := ArraySound(src, p);
    } else if c == 't' || c == 'f' || c == 'n' {
      v := WordValue(src, p);
    } else {
      var n := NumeralSound(src, p);
      v := Number(n);
    }
  }

  lemma WordValue(src: string, pos: nat) returns (v: Json)
    requires pos <= |src| && ParseValue(src, pos).Ok?
    requires At(src, pos) == 't' || At(src, pos) == 'f' || At(src, pos) == 'n'
    ensures Legal(v) && Spells(src, pos, v) && ParseValue(src, pos) == Ok(KindOf(v), pos, pos + Width(v))
  {
    v := if At(src, pos) == 't' then Bool(true) else if At(src, pos) == 'f' then Bool(false) else Null;
  }

  lemma {:induction false} ArraySound(src: string, pos: nat) returns (v: Json)
    requires pos < |src| && At(src, pos) == '[' && ParseArray(src, pos).Ok?
    ensures v.Array? && Legal(v) && Spells(src, pos, v)
    ensures ParseArray(src, pos) == Ok(ARRAY, pos, pos + Width(v))
    decreases |src| - pos, 0
  {
    hide ParseItems, Spells, SpellsItems, Starts, Legal, Width;
    if At(src, SkipWs(src, pos + 1)) == ']' {
      v := EmptySound(src, pos, false);
    } else {
      ArrayEnters(src, pos);
      var items := ItemsSound(src, pos, pos + 1);
      v := ArrayBuild(src, pos, items);
    }
  }

  lemma SkipWsAgain(src: string, pos: nat)
    ensures SkipWs(src, SkipWs(src, pos)) == SkipWs(src, pos)
  {
  }

  /** What an accepted element list says about its first element. */
  lemma ItemsInvert(src: string, start: nat, pos: nat) returns (q: nat, r: nat)
    requires start < pos <= |src| && ParseItems(src, start, pos).Ok?
    ensures SkipWs(src, pos) <= q <= r < |src| && r == SkipWs(src, q)
    ensures ParseValue(src, SkipWs(src, pos)).Ok? && ParseValue(src, SkipWs(src, pos)).end == q
    ensures At(src, r) == ',' || At(src, r) == ']'
    ensures ParseItems(src, start, pos) ==
            if At(src, r) == ',' then ParseItems(src, start, r + 1) else Ok(ARRAY, start, r + 1)
  {
    q := ParseValue(src, SkipWs(src, pos)).end;
    r := SkipWs(src, q);
  }

  lemma ItemBuild(src: string, pos: nat, p: nat, value: Json, r: nat, rest: Items) returns (items: Items)
    requires pos <= p && p + Width(value) <= r < |src| && AllWs(src[pos..p]) && AllWs(src[p + Width(value)..r])
    requires Legal(value) && Spells(src, p, value) && LegalItems(rest)
    requires rest.Item? ==> At(src, r) == ',' && SpellsItems(src, r + 1, rest)
    ensures items.Item? && items.rest == rest && LegalItems(items) && SpellsItems(src, pos, items)
    ensures pos + ItemsWidth(items) == if rest.Item? then r + 1 + ItemsWidth(rest) else r
  {
    hide Spells, Legal, Starts, AllWs, Width;
    SliceStarts(src, pos, p);
    SliceStarts(src, p + Width(value), r);
    items := Item(src[pos..p], value, src[p + Width(value)..r], rest);
  }

  lemma {:induction false} ItemsSound(src: string, start: nat, pos: nat) returns (items: Items)
    requires start < pos <= |src| && ParseItems(src, start, pos).Ok?
    ensures items.Item? && LegalItems(items) && SpellsItems(src, pos, items)
    ensures At(src, pos + ItemsWidth(items)) == ']'
    ensures ParseItems(src, start, pos) == Ok(ARRAY, start, pos + ItemsWidth(items) + 1)
    decreases |src| - pos, 3
  {
    hide ParseItems, ParseValue, SkipWs, Spells, SpellsItems, Starts, Legal, Width;
    var q, r := ItemsInvert(src, start, pos);
    var p := SkipWs(src, pos);
    SkipWsAgain(src, pos);
    var value := FirstSound(src, p, q);
    WsSound(src, pos);
    WsSound(src, q);
    var rest := NoItem;
    if At(src, r) == ',' {
      rest := ItemsSound(src, start, r + 1);
    }
    items := ItemBuild(src, pos, p, value, r, rest);
  }

  /** A value that starts where the cursor stands. */
  lemma {:induction false} FirstSound(src: string, p: nat, q: nat) returns (v: Json)
    requires p <= |src| && SkipWs(src, p) == p && ParseValue(src, p).Ok? && ParseValue(src, p).end == q
    ensures Legal(v) && Spells(src, p, v) && q == p + Width(v)
    decreases |src| - p, 2
  {
    v := ValueSound(src, p);
  }

  lemma ArrayBuild(src: string, pos: nat, items: Items) returns (v: Json)
    requires At(src, pos) == '[' && items.Item? && LegalItems(items) && SpellsItems(src, pos + 1, items)
    requires At(src, pos + 1 + ItemsWidth(items)) == ']'
    ensures v == Array("", items) && Legal(v) && Spells(src, pos, v) && Width(v) == ItemsWidth(items) + 2
  {
    hide SpellsMembers, LegalMembers, ItemsWidth, SpellsItems, LegalItems;
    v := Array("", items);
    assert Starts(src, pos + 1, "");
  }

  lemma ObjectBuild(src: string, pos: nat, members: Members) returns (v: Json)
    requires At(src, pos) == '{' && members.Member? && LegalMembers(members) && SpellsMembers(src, pos + 1, members)
    requires At(src, pos + 1 + MembersWidth(members)) == '}'
    ensures v == Object("", members) && Legal(v) && Spells(src, pos, v) && Width(v) == MembersWidth(members) + 2
  {
    hide SpellsMembers, LegalMembers, MembersWidth, SpellsItems, LegalItems;
    v := Object("", members);
    assert Starts(src, pos + 1, "");
  }

  lemma {:induction false} ObjectSound(src: string, pos: nat) returns (v: Json)
    requires pos < |src| && At(src, pos) == '{' && ParseObject(src, pos).Ok?
    ensures v.Object? && Legal(v) && Spells(src, pos, v)
    ensures ParseObject(src, pos) == Ok(OBJECT, pos, pos + Width(v))
    decreases |src| - pos, 0
  {
    hide ParseMembers, Spells, SpellsMembers, Starts, Legal, Width;
    if At(src, SkipWs(src, pos + 1)) == '}' {
      v := EmptySound(src, pos, true);
    } else {
      ObjectEnters(src, pos);
      var members := MembersSound(src, pos, pos + 1);
      v := ObjectBuild(src, pos, members);
    }
  }

  lemma EmptySound(src: string, pos: nat, braces: bool) returns (v: Json)
    requires pos < |src| && At(src, pos) == (if braces then '{' else '[')
    requires At(src, SkipWs(src, pos + 1)) == if braces then '}' else ']'
    ensures if braces then v.Object? else v.Array?
    ensures Legal(v) && Spells(src, pos, v) && pos + Width(v) == SkipWs(src, pos + 1) + 1
  {
    WsSound(src, pos + 1);
    var pad := src[pos + 1..SkipWs(src, pos + 1)];
    v := if braces then Object(pad, NoMember) else Array(pad, NoItem);
  }

  lemma KeyInvert(src: string, pos: nat) returns (p: nat, q: nat, r: nat)
    requires pos <= |src| && ParseKey(src, pos).Ok?
    ensures p == SkipWs(src, pos) && At(src, p) == '"'
    ensures ParseString(src, p).Ok? && ParseString(src, p).end == q && q <= |src| && r == SkipWs(src, q)
    ensures At(src, r) == ':' && ParseKey(src, pos).end == SkipWs(src, r + 1)
  {
    p := SkipWs(src, pos);
    q := ParseString(src, p).end;
    r := SkipWs(src, q);
  }

  lemma SliceStarts(src: string, a: nat, b: nat)
    requires a <= b <= |src|
    ensures Starts(src, a, src[a..b])
  {
  }

  lemma KeySound(src: string, pos: nat) returns (m: Members)
    requires pos <= |src| && ParseKey(src, pos).Ok?
    ensures m.Member? && m.rest == NoMember && AllWs(m.before) && IsBody(m.key) && AllWs(m.afterKey) && AllWs(m.beforeValue)
    ensures SpellsKey(src, pos, m) && ParseKey(src, pos).end == pos + KeyWidth(m)
    ensures SkipWs(src, pos + KeyWidth(m)) == pos + KeyWidth(m)
  {
    hide ParseKey, ParseString, IsBody, Starts, AllWs, SkipWs;
    var p, q, r := KeyInvert(src, pos);
    var key := QuotedSound(src, p);
    SkipWsAgain(src, r + 1);
    WsSound(src, pos);
    WsSound(src, q);
    WsSound(src, r + 1);
    SliceStarts(src, pos, p);
    SliceStarts(src, q, r);
    SliceStarts(src, r + 1, SkipWs(src, r + 1));
    m := Member(src[pos..p], key, src[q..r], src[r + 1..SkipWs(src, r + 1)], Null, "", NoMember);
  }

  lemma MembersInvert(src: string, start: nat, pos: nat) returns (p: nat, q: nat, r: nat)
    requires start < pos <= |src| && ParseMembers(src, start, pos).Ok?
    ensures ParseKey(src, pos).Ok? && p == ParseKey(src, pos).end && pos < p <= q <= r < |src|
    ensures ParseValue(src, p).Ok? && ParseValue(src, p).end == q && r == SkipWs(src, q)
    ensures At(src, r) == ',' || At(src, r) == '}'
    ensures ParseMembers(src, start, pos) ==
            if At(src, r) == ',' then ParseMembers(src, start, r + 1) else Ok(OBJECT, start, r + 1)
  {
    p := ParseKey(src, pos).end;
    q := ParseValue(src, p).end;
    r := SkipWs(src, q);
  }

  /** A member's key does not depend on what follows it. */
  lemma KeyIsKept(src: string, pos: nat, m: Members, value: Json, after: string, rest: Members)
    requires m.Member?
    ensures var members := m.(value := value, after := after, rest := rest);
      KeyWidth(members) == KeyWidth(m) && SpellsKey(src, pos, members) == SpellsKey(src, pos, m)
  {
  }

  lemma MemberBuild(src: string, pos: nat, m: Members, value: Json, r: nat, rest: Members) returns (members: Members)
    requires m.Member? && AllWs(m.before) && IsBody(m.key) && AllWs(m.afterKey) && AllWs(m.beforeValue)
    requires SpellsKey(src, pos, m)
    requires var q := pos + KeyWidth(m) + Width(value); q <= r < |src| && AllWs(src[q..r])
    requires Legal(value) && Spells(src, pos + KeyWidth(m), value) && LegalMembers(rest)
    requires rest.Member? ==> At(src, r) == ',' && SpellsMembers(src, r + 1, rest)
    ensures members.Member? && members.rest == rest && LegalMembers(members) && SpellsMembers(src, pos, members)
    ensures pos + MembersWidth(members) == if rest.Member? then r + 1 + MembersWidth(rest) else r
  {
    hide Spells, Legal, IsBody, SpellsKey, Starts, AllWs, Width, KeyWidth;
    KeyIsKept(src, pos, m, value, src[pos + KeyWidth(m) + Width(value)..r], rest);
    SliceStarts(src, pos + KeyWidth(m) + Width(value), r);
    members := m.(value := value, after := src[pos + KeyWidth(m) + Width(value)..r], rest := rest);
  }

  lemma {:induction false} MembersSound(src: string, start: nat, pos: nat) returns (members: Members)
    requires start < pos <= |src| && ParseMembers(src, start, pos).Ok?
    ensures members.Member? && LegalMembers(members) && SpellsMembers(src, pos, members)
    ensures At(src, pos + MembersWidth(members)) == '}'
    ensures ParseMembers(src, start, pos) == Ok(OBJECT, start, pos + MembersWidth(members) + 1)
    decreases |src| - pos, 3
  {
    hide ParseMembers, ParseValue, ParseKey, SkipWs, Spells, SpellsKey, SpellsMembers, Starts, Legal, Width;
    var p, q, r := MembersInvert(src, start, pos);
    var m := KeySound(src, pos);
    var value := FirstSound(src, p, q);
    WsSound(src, q);
    var rest := NoMember;
    if At(src, r) == ',' {
      rest := MembersSound(src, start, r + 1);
    }
    members := MemberBuild(src, pos, m, value, r, rest);
  }

  // ---------------------------------------------------------------- a tree's text, by rendering

  lemma StartsSplit(src: string, pos: nat, a: string, b: string)
    ensures Starts(src, pos, a + b) <==> Starts(src, pos, a) && Starts(src, pos + |a|, b)
  {
    if Starts(src, pos, a + b) {
      assert src[pos..pos + |a|] == (a + b)[..|a|];
      assert src[pos + |a|..pos + |a| + |b|] == (a + b)[|a|..];
    }
    if Starts(src, pos, a) && Starts(src, pos + |a|, b) {
      assert src[pos..pos + |a| + |b|] == src[pos..pos + |a|] + src[pos + |a|..pos + |a| + |b|];
    }
  }

  lemma StartsChar(src: string, pos: nat, c: char)
    requires c != '\0'
    ensures Starts(src, pos, [c]) <==> At(src, pos) == c
  {
    if At(src, pos) == c {
      assert src[pos..pos + 1] == [c];
    }
    if Starts(src, pos, [c]) {
      StartsAt(src, pos, [c]);
    }
  }

  /** Four pieces in a row; the generic shape of every rendering below. */
  lemma StartsFour(src: string, pos: nat, a: string, b: string, c: string, d: string)
    ensures Starts(src, pos, a + (b + (c + d))) <==>
            Starts(src, pos, a) && Starts(src, pos + |a|, b) && Starts(src, pos + |a| + |b|, c) &&
            Starts(src, pos + |a| + |b| + |c|, d)
  {
    hide Starts;
    StartsSplit(src, pos, a, b + (c + d));
    StartsSplit(src, pos + |a|, b, c + d);
    StartsSplit(src, pos + |a| + |b|, c, d);
  }

  lemma StartsEnd(src: string, pos: nat, text: string)
    ensures Starts(src, pos, text) ==> pos + |text| <= |src|
    ensures text == [] ==> (Starts(src, pos, text) <==> pos <= |src|)
  {
  }

  lemma QuotedSpells(src: string, pos: nat, body: string)
    ensures Starts(src, pos, Quoted(body)) <==> SpellsQuoted(src, pos, body)
  {
    hide Starts;
    StartsSplit(src, pos, ['"'], body + ['"']);
    StartsSplit(src, pos + 1, body, ['"']);
    StartsChar(src, pos, '"');
    StartsChar(src, pos + 1 + |body|, '"');
  }

  lemma FractionSpells(src: string, pos: nat, f: Option<string>)
    requires pos <= |src|
    ensures Starts(src, pos, RenderFraction(f)) <==> SpellsFraction(src, pos, f)
  {
    hide Starts;
    StartsEnd(src, pos, []);
    if f.Some? {
      StartsSplit(src, pos, ['.'], f.value);
      StartsChar(src, pos, '.');
    }
  }

  lemma ExponentSpells(src: string, pos: nat, e: Option<Exponent>)
    requires pos <= |src|
    ensures Starts(src, pos, RenderExponentPart(e)) <==> SpellsExponent(src, pos, e)
  {
    hide Starts;
    StartsEnd(src, pos, []);
    if e.Some? {
      var c := if e.value.upper then 'E' else 'e';
      StartsSplit(src, pos, [c], e.value.sign + e.value.digits);
      StartsChar(src, pos, c);
      StartsSplit(src, pos + 1, e.value.sign, e.value.digits);
    }
  }

  lemma NumeralSpells(src: string, pos: nat, n: Numeral)
    requires pos <= |src|
    ensures |RenderNumeral(n)| == NumeralWidth(n)
    ensures Starts(src, pos, RenderNumeral(n)) <==> SpellsNumeral(src, pos, n)
  {
    hide Starts;
    var minus := if n.minus then ['-'] else [];
    var q := pos + |minus| + |n.whole|;
    StartsFour(src, pos, minus, n.whole, RenderFraction(n.fraction), RenderExponentPart(n.exponent));
    StartsChar(src, pos, '-');
    StartsEnd(src, pos, minus);
    StartsEnd(src, pos + |minus|, n.whole);
    NumeralTail(src, q, n.fraction, n.exponent);
  }

  lemma NumeralTail(src: string, q: nat, f: Option<string>, e: Option<Exponent>)
    ensures |RenderFraction(f)| == if f.Some? then 1 + |f.value| else 0
    ensures |RenderExponentPart(e)| == if e.Some? then 1 + |e.value.sign| + |e.value.digits| else 0
    ensures q <= |src| ==>
              (Starts(src, q, RenderFraction(f)) && Starts(src, q + |RenderFraction(f)|, RenderExponentPart(e))
               <==> SpellsFraction(src, q, f) &&
                    SpellsExponent(src, if f.Some? then q + 1 + |f.value| else q, e))
  {
    hide Starts;
    if q <= |src| {
      FractionSpells(src, q, f);
      StartsEnd(src, q, RenderFraction(f));
      if f.Some? {
        StartsEnd(src, q + 1, f.value);
      }
      if q + |RenderFraction(f)| <= |src| {
        ExponentSpells(src, q + |RenderFraction(f)|, e);
      }
    }
  }

  /** An opening bracket, padding, contents and a closing bracket. */
  lemma BracketSpells(src: string, pos: nat, open: char, pad: string, text: string, close: char)
    requires open != '\0' && close != '\0'
    ensures Starts(src, pos, [open] + (pad + (text + [close]))) <==>
            At(src, pos) == open && Starts(src, pos + 1, pad) && Starts(src, pos + 1 + |pad|, text) &&
            At(src, pos + 1 + |pad| + |text|) == close
  {
    hide Starts;
    StartsFour(src, pos, [open], pad, text, [close]);
    StartsChar(src, pos, open);
    StartsChar(src, pos + 1 + |pad| + |text|, close);
  }

  /** What follows an element: nothing, or a comma and more text. */
  lemma TailSpells(src: string, pos: nat, more: bool, rest: string)
    ensures pos <= |src| ==>
              (Starts(src, pos, if more then [','] + rest else []) <==>
               (more ==> At(src, pos) == ',' && Starts(src, pos + 1, rest)))
  {
    hide Starts;
    StartsEnd(src, pos, []);
    StartsSplit(src, pos, [','], rest);
    StartsChar(src, pos, ',');
  }

  /** Standing in the text by positions is the same as standing there as rendered text. */
  lemma {:induction false} ValueSpells(src: string, pos: nat, v: Json)
    ensures |Render(v)| == Width(v)
    ensures pos <= |src| ==> (Starts(src, pos, Render(v)) <==> Spells(src, pos, v))
    decreases v, 1
  {
    hide Starts, SpellsItems, SpellsMembers, RenderItems, RenderMembers, ItemsWidth, MembersWidth, SpellsNumeral,
         NumeralWidth, RenderNumeral, SpellsQuoted;
    match v
    case Null =>
    case Bool(_) =>
    case Number(n) => NumeralWidths(n); if pos <= |src| { NumeralSpells(src, pos, n); }
    case String(body) => QuotedSpells(src, pos, body);
    case Array(pad, items) =>
      StartsEnd(src, pos + 1, pad);
      BracketSpells(src, pos, '[', pad, RenderItems(items), ']');
      ItemsSpells(src, pos + 1 + |pad|, items);
    case Object(pad, members) =>
      StartsEnd(src, pos + 1, pad);
      BracketSpells(src, pos, '{', pad, RenderMembers(members), '}');
      MembersSpells(src, pos + 1 + |pad|, members);
  }

  lemma NumeralWidths(n: Numeral)
    ensures |RenderNumeral(n)| == NumeralWidth(n)
  {
  }

  lemma {:induction false} ItemsSpells(src: string, pos: nat, items: Items)
    ensures |RenderItems(items)| == ItemsWidth(items)
    ensures pos <= |src| ==> (Starts(src, pos, RenderItems(items)) <==> SpellsItems(src, pos, items))
    decreases items
  {
    hide Starts, Spells, Render, Width;
    StartsEnd(src, pos, []);
    if items.Item? {
      StartsEnd(src, pos, items.before);
      var tail := if items.rest == NoItem then [] else [','] + RenderItems(items.rest);
      var p := pos + |items.before|;
      ValueSpells(src, p, items.value);
      var r := p + Width(items.value) + |items.after|;
      ItemsSpells(src, r + 1, items.rest);
      StartsFour(src, pos, items.before, Render(items.value), items.after, tail);
      StartsEnd(src, p + Width(items.value), items.after);
      TailSpells(src, r, items.rest.Item?, RenderItems(items.rest));
    }
  }

  lemma KeySpells(src: string, pos: nat, m: Members, rest: string)
    requires m.Member?
    ensures Starts(src, pos, m.before + (Quoted(m.key) + (m.afterKey + ([':'] + (m.beforeValue + rest))))) <==>
            SpellsKey(src, pos, m) && Starts(src, pos + KeyWidth(m), rest)
    ensures |m.before + (Quoted(m.key) + (m.afterKey + ([':'] + (m.beforeValue + rest))))| == KeyWidth(m) + |rest|
    ensures SpellsKey(src, pos, m) ==> pos + KeyWidth(m) <= |src|
  {
    hide Starts;
    var p := pos + |m.before|;
    var q := p + |m.key| + 2;
    var r := q + |m.afterKey|;
    StartsFour(src, pos, m.before, Quoted(m.key), m.afterKey, [':'] + (m.beforeValue + rest));
    QuotedSpells(src, p, m.key);
    StartsSplit(src, r, [':'], m.beforeValue + rest);
    StartsChar(src, r, ':');
    StartsSplit(src, r + 1, m.beforeValue, rest);
    StartsEnd(src, r + 1, m.beforeValue);
  }

  lemma {:induction false} MembersSpells(src: string, pos: nat, members: Members)
    ensures |RenderMembers(members)| == MembersWidth(members)
    ensures pos <= |src| ==> (Starts(src, pos, RenderMembers(members)) <==> SpellsMembers(src, pos, members))
    decreases members
  {
    hide Starts, Spells, SpellsKey, Render, Quoted, Width, KeyWidth;
    StartsEnd(src, pos, []);
    if members.Member? {
      var tail := if members.rest == NoMember then [] else [','] + RenderMembers(members.rest);
      var p := pos + KeyWidth(members);
      ValueSpells(src, p, members.value);
      var q := p + Width(members.value);
      var r := q + |members.after|;
      MembersSpells(src, r + 1, members.rest);
      KeySpells(src, pos, members, Render(members.value) + (members.after + tail));
      StartsSplit(src, p, Render(members.value), members.after + tail);
      StartsSplit(src, q, members.after, tail);
      StartsEnd(src, q, members.after);
      TailSpells(src, r, members.rest.Member?, RenderMembers(members.rest));
    }
  }

  // ---------------------------------------------------------------- main results

  /** Wherever the text of a legal value stands, the parser reads it and stops exactly behind it. */
  lemma ParseRendered(src: string, pos: nat, v: Json)
    requires Legal(v) && Starts(src, pos, Render(v)) && Follows(At(src, pos + |Render(v)|))
    ensures pos <= |src| && ParseValue(src, pos) == Ok(KindOf(v), pos, pos + |Render(v)|)
  {
    ValueSpells(src, pos, v);
    ValueOver(src, pos, v);
  }

  /** Whatever span the parser returns is the text of a legal value of that kind. */
  lemma ParsedIsRendered(src: string, pos: nat) returns (v: Json)
    requires pos <= |src| && ParseValue(src, pos).Ok?
    ensures var r := ParseValue(src, pos);
      && Legal(v) && r.kind == KindOf(v) && src[r.start..r.end] == Render(v)
      && AllWs(src[pos..r.start])
  {
    v := ValueSound(src, pos);
    WsSound(src, pos);
    ValueSpells(src, SkipWs(src, pos), v);
  }

  lemma RootOfRendered(before: string, v: Json, after: string)
    requires Legal(v) && AllWs(before) && AllWs(after)
    ensures ParseRoot(before + Render(v) + after) == Ok(KindOf(v), |before|, |before| + |Render(v)|)
  {
    hide ParseValue, Legal, Render, Starts, AllWs, SkipWs, KindOf;
    var src := before + Render(v) + after;
    var end := |before| + |Render(v)|;
    StartsBetween(before, Render(v), after);
    RootFollow(src, end, after);
    RenderedIsNotWs(v);
    assert At(src, |before|) == Render(v)[0];
    WsOver(src, 0, before);
    ParseRendered(src, |before|, v);
    ParseSkipsWs(src, 0);
  }

  lemma StartsBetween(a: string, b: string, c: string)
    ensures var src := a + b + c;
      Starts(src, 0, a) && Starts(src, |a|, b) && Starts(src, |a| + |b|, c)
  {
  }

  lemma RenderedIsNotWs(v: Json)
    requires Legal(v)
    ensures Render(v) != "" && !IsWs(Render(v)[0])
  {
  }

  lemma ParseSkipsWs(src: string, pos: nat)
    requires pos <= |src|
    ensures ParseValue(src, SkipWs(src, pos)) == ParseValue(src, pos)
  {
    SkipWsAgain(src, pos);
  }

  lemma RootFollow(src: string, end: nat, after: string)
    requires Starts(src, end, after) && AllWs(after) && end + |after| == |src|
    ensures Follows(At(src, end)) && At(src, SkipWs(src, end)) == '\0'
  {
    WsOver(src, end, after);
    if after != "" {
      StartsAt(src, end, after);
    }
  }

  ghost predicate IsText(src: string) {
    exists before: string, v: Json, after: string ::
      Legal(v) && AllWs(before) && AllWs(after) && src == before + Render(v) + after
  }

  /** On a C string, the parser accepts exactly the texts of legal values with white space around them. */
  lemma RootAcceptsIff(src: string)
    requires forall i :: 0 <= i < |src| ==> src[i] != '\0'
    ensures ParseRoot(src).Ok? <==> IsText(src)
  {
    if ParseRoot(src).Ok? {
      var r := ParseValue(src, 0);
      var v := ParsedIsRendered(src, 0);
      WsSound(src, r.end);
      var end := SkipWs(src, r.end);
      assert end == |src|;
      assert src == src[0..r.start] + Render(v) + src[r.end..end];
    }
    if IsText(src) {
      var before, v, after :| Legal(v) && AllWs(before) && AllWs(after) && src == before + Render(v) + after;
      RootOfRendered(before, v, after);
    }
  }
}
