/**
 JSON texts as trees that keep their layout: every white space, the raw bytes of
 strings and the spelling of numbers. Rendering a tree gives the text back. The
 grammar is the one the C parser accepts, which contains that of RFC 8259 sections
 2 to 7: it also takes any escape, raw control characters, and numbers with missing digits.
 */
module JsonTree {
  import opened Options

  datatype Exponent = Exponent(upper: bool, sign: string, digits: string)

  datatype Numeral = Numeral(minus: bool, whole: string, fraction: Option<string>, exponent: Option<Exponent>)

  datatype Json =
    | Null
    | Bool(value: bool)
    | Number(numeral: Numeral)
    | String(body: string)
    | Array(pad: string, items: Items)
    | Object(pad: string, members: Members)

  /** The elements of an array, each with the white space around it. */
  datatype Items = NoItem | Item(before: string, value: Json, after: string, rest: Items)

  datatype Members =
    | NoMember
    | Member(before: string, key: string, afterKey: string, beforeValue: string, value: Json, after: string, rest: Members)

  datatype Kind = NULL | BOOL | NUMBER | STRING | ARRAY | OBJECT

  function KindOf(v: Json): Kind {
    match v
    case Null => NULL
    case Bool(_) => BOOL
    case Number(_) => NUMBER
    case String(_) => STRING
    case Array(_, _) => ARRAY
    case Object(_, _) => OBJECT
  }

  // ---------------------------------------------------------------- rendering

  function RenderExponent(e: Exponent): string {
    [if e.upper then 'E' else 'e'] + (e.sign + e.digits)
  }

  function RenderExponentPart(e: Option<Exponent>): string {
    if e.Some? then RenderExponent(e.value) else []
  }

  function RenderFraction(f: Option<string>): string {
    if f.Some? then ['.'] + f.value else []
  }

  function RenderNumeral(n: Numeral): string {
    (if n.minus then ['-'] else []) +
    (n.whole + (RenderFraction(n.fraction) + RenderExponentPart(n.exponent)))
  }

  function Quoted(body: string): string {
    ['"'] + (body + ['"'])
  }

  function Render(v: Json): string {
    match v
    case Null => "null"
    case Bool(b) => if b then "true" else "false"
    case Number(n) => RenderNumeral(n)
    case String(body) => Quoted(body)
    case Array(pad, items) => ['['] + (pad + (RenderItems(items) + [']']))
    case Object(pad, members) => ['{'] + (pad + (RenderMembers(members) + ['}']))
  }

  function RenderItems(items: Items): string {
    match items
    case NoItem => []
    case Item(before, value, after, rest) =>
      before + (Render(value) + (after + if rest == NoItem then [] else [','] + RenderItems(rest)))
  }

  function RenderMembers(members: Members): string {
    match members
    case NoMember => []
    case Member(before, key, afterKey, beforeValue, value, after, rest) =>
      before + (Quoted(key) + (afterKey + ([':'] + (beforeValue +
      (Render(value) + (after + if rest == NoMember then [] else [','] + RenderMembers(rest)))))))
  }

  // ---------------------------------------------------------------- which trees are texts

  predicate IsWs(c: char) {
    c == ' ' || c == '\t' || c == '\n' || c == '\r'
  }

  predicate IsDigit(c: char) {
    '0' <= c <= '9'
  }

  predicate AllWs(s: string) {
    forall i :: 0 <= i < |s| ==> IsWs(s[i])
  }

  predicate AllDigits(s: string) {
    forall i :: 0 <= i < |s| ==> IsDigit(s[i])
  }

  /** The bytes between two quotes: every backslash takes the next byte with it. */
  predicate IsBody(s: string) {
    if s == "" then true
    else if s[0] == '\\' then |s| >= 2 && IsBody(s[2..])
    else s[0] != '"' && s[0] != '\0' && IsBody(s[1..])
  }

  predicate IsExponent(e: Exponent) {
    AllDigits(e.digits) && (e.sign == "" || e.sign == "+" || e.sign == "-")
  }

  predicate IsNumeral(n: Numeral) {
    && (n.minus || n.whole != "")
    && AllDigits(n.whole)
    && (n.fraction.Some? ==> AllDigits(n.fraction.value))
    && (n.exponent.Some? ==> IsExponent(n.exponent.value))
  }

  predicate Legal(v: Json) {
    match v
    case Null => true
    case Bool(_) => true
    case Number(n) => IsNumeral(n)
    case String(body) => IsBody(body)
    case Array(pad, items) => AllWs(pad) && (items != NoItem ==> pad == "") && LegalItems(items)
    case Object(pad, members) => AllWs(pad) && (members != NoMember ==> pad == "") && LegalMembers(members)
  }

  predicate LegalItems(items: Items) {
    items.Item? ==> AllWs(items.before) && Legal(items.value) && AllWs(items.after) && LegalItems(items.rest)
  }

  predicate LegalMembers(members: Members) {
    members.Member? ==>
      && AllWs(members.before) && IsBody(members.key) && AllWs(members.afterKey) && AllWs(members.beforeValue)
      && Legal(members.value) && AllWs(members.after) && LegalMembers(members.rest)
  }

  // ---------------------------------------------------------------- reading a tree

  function Length(items: Items): nat {
    if items.NoItem? then 0 else 1 + Length(items.rest)
  }

  function Nth(items: Items, index: nat): Json
    requires index < Length(items)
  {
    if index == 0 then items.value else Nth(items.rest, index - 1)
  }

  predicate HasKey(members: Members, key: string) {
    members.Member? && (members.key == key || HasKey(members.rest, key))
  }

  /** The first member with this key, compared byte by byte without decoding escapes. */
  function Lookup(members: Members, key: string): Json
    requires HasKey(members, key)
  {
    if members.key == key then members.value else Lookup(members.rest, key)
  }
}
