/**
 JSON strings in the C client: the writer that escapes a byte string, and the decoder
 that reads the bytes between two quotes. Bytes are characters below 256.
 */
module JsonString {
  import opened HexDigits
  import opened JsonTree
  import opened Options
  import opened JsonSpan
  import StrBuf

  // ---------------------------------------------------------------- writing

  function Escaped(c: char): (s: string)
    requires c != '\0'
    ensures IsBody(s)
  {
    if c == '"' then ['\\', '"']
    else if c == '\\' then ['\\', '\\']
    else if c as int == 0x08 then ['\\', 'b']
    else if c as int == 0x0C then ['\\', 'f']
    else if c == '\n' then ['\\', 'n']
    else if c == '\r' then ['\\', 'r']
    else if c == '\t' then ['\\', 't']
    else if c as int < 0x20 then
      var s := ['\\', 'u', '0', '0', HexDigit(c as int / 16), HexDigit(c as int % 16)];
      assert s[2..][1..][1..][1..][1..] == [];
      s
    else [c]
  }

  function Escape(s: string): string
    requires '\0' !in s
  {
    if s == "" then "" else Escaped(s[0]) + Escape(s[1..])
  }

  // ---------------------------------------------------------------- reading

  predicate IsHex(c: char) {
    '0' <= c <= '9' || 'a' <= c <= 'f' || 'A' <= c <= 'F'
  }

  /** The value of a hexadecimal digit; any other character counts as zero. */
  function HexValue(c: char): (d: nat)
    ensures d < 16
  {
    if '0' <= c <= '9' then c as int - '0' as int
    else if 'a' <= c <= 'f' then c as int - 'a' as int + 10
    else if 'A' <= c <= 'F' then c as int - 'A' as int + 10
    else 0
  }

  function Hex(s: string): nat {
    if s == "" then 0 else Hex(s[..|s| - 1]) * 16 + HexValue(s[|s| - 1])
  }

  predicate AllHex(s: string) {
    forall i :: 0 <= i < |s| ==> IsHex(s[i])
  }

  predicate IsHigh(cp: nat) {
    0xD800 <= cp <= 0xDBFF
  }

  predicate IsLow(cp: nat) {
    0xDC00 <= cp <= 0xDFFF
  }

  function Pair(high: nat, low: nat): (cp: nat)
    requires IsHigh(high) && IsLow(low)
    ensures 0x10000 <= cp <= 0x10FFFF
  {
    0x10000 + (high - 0xD800) * 0x400 + (low - 0xDC00)
  }

  /** The bytes of a code point. */
  function Utf8(cp: nat): (bytes: string)
    requires cp <= 0x10FFFF
    ensures 1 <= |bytes| <= 4
  {
    if cp < 0x80 then [cp as char]
    else if cp < 0x800 then [(0xC0 + cp / 0x40) as char, (0x80 + cp % 0x40) as char]
    else if cp < 0x10000 then
      [(0xE0 + cp / 0x1000) as char, (0x80 + cp / 0x40 % 0x40) as char, (0x80 + cp % 0x40) as char]
    else
      [(0xF0 + cp / 0x40000) as char, (0x80 + cp / 0x1000 % 0x40) as char,
       (0x80 + cp / 0x40 % 0x40) as char, (0x80 + cp % 0x40) as char]
  }

  function Min(a: nat, b: nat): nat {
    if a < b then a else b
  }

  lemma {:induction false} HexBound(s: string)
    requires |s| <= 4
    ensures Hex(s) <= 0xFFFF
    ensures |s| <= 3 ==> Hex(s) <= 0xFFF
    ensures |s| <= 2 ==> Hex(s) <= 0xFF
    ensures |s| <= 1 ==> Hex(s) <= 0xF
    ensures s == "" ==> Hex(s) == 0
    decreases |s|
  {
    if s != "" { HexBound(s[..|s| - 1]); }
  }

  /** After a high surrogate: the digits of a low one, when a complete escape for it follows. */
  predicate LowFollows(rest: string) {
    && |rest| >= 2 && rest[0] == '\\' && rest[1] == 'u'
    && var digits := rest[2..2 + Min(4, |rest| - 2)]; AllHex(digits) && IsLow(Hex(digits))
  }

  lemma LowIsFourDigits(rest: string)
    requires LowFollows(rest)
    ensures |rest| >= 6
  {
    HexBound(rest[2..2 + Min(4, |rest| - 2)]);
  }

  /** What `u` and its digits stand for, and how many bytes after the digits belong to it. */
  function CodePoint(first: nat, rest: string): (r: (nat, nat))
    requires first <= 0xFFFF
    ensures r.0 <= 0x10FFFF && r.1 <= |rest|
    ensures r.0 > 0xFFFF ==> r.1 == 6
  {
    if IsHigh(first) && LowFollows(rest) then
      LowIsFourDigits(rest);
      (Pair(first, Hex(rest[2..6])), 6)
    else (first, 0)
  }

  function ShortEscape(c: char): char {
    if c == 'b' then 0x08 as char
    else if c == 'f' then 0x0C as char
    else if c == 'n' then '\n'
    else if c == 'r' then '\r'
    else if c == 't' then '\t'
    else c
  }

  /**
   The bytes a string body stands for. Digits that are missing or are not hexadecimal
   count as zeros, and a backslash in the last place takes the closing quote.
   */
  function Decode(body: string): string
    decreases |body|
  {
    if body == "" then ""
    else if body[0] != '\\' then [body[0]] + Decode(body[1..])
    else if |body| == 1 then ['"']
    else if body[1] != 'u' then [ShortEscape(body[1])] + Decode(body[2..])
    else
      var (cp, width) := UnicodeAt(body);
      Utf8(cp) + Decode(body[width..])
  }

  /** The code point of the `u` escape that begins a body, and the bytes that belong to it. */
  function UnicodeAt(body: string): (r: (nat, nat))
    requires |body| >= 2
    ensures r.0 <= 0x10FFFF && 2 <= r.1 <= |body|
  {
    var n := 2 + Min(4, |body| - 2);
    HexBound(body[2..n]);
    var (cp, taken) := CodePoint(Hex(body[2..n]), body[n..]);
    (cp, n + taken)
  }

  // ---------------------------------------------------------------- the decoder never writes more than it reads

  /** The decoded bytes fit where the body was, so the buffer of twice its length is never outrun. */
  lemma {:induction false} DecodedFits(body: string)
    ensures |Decode(body)| <= |body|
    decreases |body|
  {
    hide Utf8, UnicodeAt, ShortEscape;
    if body == "" || |body| == 1 {
      if body != "" && body[0] != '\\' {
        DecodedFits(body[1..]);
      }
    } else if body[0] != '\\' {
      DecodedFits(body[1..]);
    } else if body[1] != 'u' {
      DecodedFits(body[2..]);
    } else {
      UnicodeFits(body);
      DecodedFits(body[UnicodeAt(body).1..]);
    }
  }

  lemma CodePointFrom(first: nat, rest: string)
    requires first <= 0xFFFF
    ensures CodePoint(first, rest).0 == first || CodePoint(first, rest).1 == 6
  {
  }

  lemma Utf8Fits(cp: nat, n: nat, taken: nat, first: nat)
    requires cp <= 0x10FFFF && 2 <= n <= 6 && (cp > 0xFFFF ==> taken == 6) && (cp <= 0xFFFF ==> cp == first || taken == 6)
    requires (n <= 5 ==> first <= 0xFFF) && (n <= 4 ==> first <= 0xFF) && (n <= 3 ==> first <= 0xF) && (n == 2 ==> first == 0)
    ensures |Utf8(cp)| <= n + taken
  {
  }

  // ---------------------------------------------------------------- round trip

  lemma HexOfControl(c: char)
    requires c as int < 0x20
    ensures var h := ['0', '0', HexDigit(c as int / 16), HexDigit(c as int % 16)];
      Hex(h) == c as int
  {
    var high, low := HexDigit(c as int / 16), HexDigit(c as int % 16);
    HexAppend("", '0');
    HexAppend(['0'], '0');
    HexAppend(['0', '0'], high);
    HexAppend(['0', '0', high], low);
    assert [] + ['0'] == ['0'] && ['0'] + ['0'] == ['0', '0'] && ['0', '0'] + [high] == ['0', '0', high];
    assert ['0', '0', high] + [low] == ['0', '0', high, low];
  }

  lemma HexAppend(s: string, c: char)
    ensures Hex(s + [c]) == Hex(s) * 16 + HexValue(c)
    ensures AllHex(s + [c]) == (AllHex(s) && IsHex(c))
    ensures Hex("") == 0 && AllHex("")
  {
    var all := s + [c];
    assert all[|s|] == c && forall i :: 0 <= i < |s| ==> all[i] == s[i];
    assert (s + [c])[..|s|] == s;
  }

  lemma DecodeControl(c: char, rest: string)
    requires 0 < c as int < 0x20 && |Escaped(c)| == 6
    ensures Decode(Escaped(c) + rest) == [c] + Decode(rest)
  {
    hide Hex, Utf8;
    var all := Escaped(c) + rest;
    HexOfControl(c);
    assert all[2..6] == ['0', '0', HexDigit(c as int / 16), HexDigit(c as int % 16)];
    assert all[6..] == rest && all[6 + 0..] == rest;
    Utf8OfControl(c);
  }

  lemma Utf8OfControl(c: char)
    requires 0 < c as int < 0x20
    ensures Utf8(c as int) == [c]
  {
  }

  lemma DecodeEscaped(c: char, rest: string)
    requires c != '\0'
    ensures Decode(Escaped(c) + rest) == [c] + Decode(rest)
  {
    hide Decode, Hex;
    var s := Escaped(c);
    if |s| == 6 {
      DecodeControl(c, rest);
    } else if |s| == 2 {
      assert s == ['\\', s[1]] && ShortEscape(s[1]) == c;
      DecodeShort(s[1], rest);
    } else {
      DecodePlain(c, rest);
    }
  }

  lemma {:induction false} DecodeOfEscape(s: string)
    requires '\0' !in s
    ensures Decode(Escape(s)) == s
  {
    if s != "" {
      DecodeEscaped(s[0], Escape(s[1..]));
      DecodeOfEscape(s[1..]);
    }
  }

  lemma {:induction false} EscapeIsBody(s: string)
    requires '\0' !in s
    ensures IsBody(Escape(s))
  {
    if s != "" {
      EscapeIsBody(s[1..]);
      BodyJoin(Escaped(s[0]), Escape(s[1..]));
    }
  }

  /** What is written holds no control character. */
  lemma {:induction false} NoControlIsWritten(s: string)
    requires '\0' !in s
    ensures forall i :: 0 <= i < |Escape(s)| ==> Escape(s)[i] as int >= 0x20
  {
    if s != "" {
      NoControlIsWritten(s[1..]);
      var first := Escaped(s[0]);
      assert forall i :: 0 <= i < |first| ==> first[i] as int >= 0x20;
    }
  }

  lemma {:induction false} BodyJoin(a: string, b: string)
    requires IsBody(a) && IsBody(b)
    ensures IsBody(a + b)
    decreases |a|
  {
    if a == "" {
      assert a + b == b;
    } else if a[0] == '\\' {
      BodyJoin(a[2..], b);
      assert (a + b)[2..] == a[2..] + b;
    } else {
      BodyJoin(a[1..], b);
      assert (a + b)[1..] == a[1..] + b;
    }
  }

  /** Every byte string without a zero byte survives writing, parsing and decoding, whatever follows it. */
  lemma RoundTrip(s: string, before: string, after: string)
    requires '\0' !in s
    ensures var src := before + Quoted(Escape(s)) + after;
      var r := ParseString(src, |before|);
      && r == Ok(STRING, |before|, |before| + |Quoted(Escape(s))|)
      && Decode(src[r.start + 1..r.end - 1]) == s
  {
    hide Decode, Escape, IsBody;
    var src := before + Quoted(Escape(s)) + after;
    EscapeIsBody(s);
    DecodeOfEscape(s);
    QuotedInside(before, Escape(s), after);
    QuotedSpells(src, |before|, Escape(s));
    QuotedOver(src, |before|, Escape(s));
  }

  lemma QuotedInside(before: string, body: string, after: string)
    ensures var src := before + Quoted(body) + after;
      && Starts(src, |before|, Quoted(body)) && |Quoted(body)| == |body| + 2
      && |before| + 1 + |body| <= |src| && src[|before| + 1..|before| + 1 + |body|] == body
  {
  }

  // ---------------------------------------------------------------- what well-formed escapes mean

  /** One unit of a string body, in the words of RFC 8259 section 7. */
  datatype Unit = Plain(c: char) | Short(letter: char) | Code(digits: string)

  predicate IsUnit(u: Unit) {
    match u
    case Plain(c) => c != '"' && c != '\\' && c != '\0'
    case Short(letter) => letter != 'u'
    case Code(digits) => |digits| == 4 && AllHex(digits)
  }

  function SpellUnit(u: Unit): string {
    match u
    case Plain(c) => [c]
    case Short(letter) => ['\\', letter]
    case Code(digits) => ['\\', 'u'] + digits
  }

  function Spell(units: seq<Unit>): string {
    if units == [] then "" else SpellUnit(units[0]) + Spell(units[1..])
  }

  predicate AllUnits(units: seq<Unit>) {
    forall i :: 0 <= i < |units| ==> IsUnit(units[i])
  }

  /** Two escapes that spell one code point beyond the basic plane. */
  predicate IsPair(units: seq<Unit>) {
    |units| >= 2 && units[0].Code? && units[1].Code? && IsHigh(Hex(units[0].digits)) && IsLow(Hex(units[1].digits))
  }

  /** The bytes the units stand for: UTF-8 of each code point, surrogate pairs joined. */
  function Meaning(units: seq<Unit>): string
    requires AllUnits(units)
  {
    if units == [] then ""
    else if IsPair(units) then
      Utf8(Pair(Hex(units[0].digits), Hex(units[1].digits))) + Meaning(units[2..])
    else
      match units[0]
      case Plain(c) => [c] + Meaning(units[1..])
      case Short(letter) => [ShortEscape(letter)] + Meaning(units[1..])
      case Code(digits) => HexBound(digits); Utf8(Hex(digits)) + Meaning(units[1..])
  }

  lemma DecodePlain(c: char, rest: string)
    requires c != '\\'
    ensures Decode([c] + rest) == [c] + Decode(rest)
  {
    assert ([c] + rest)[1..] == rest;
  }

  lemma DecodeShort(letter: char, rest: string)
    requires letter != 'u'
    ensures Decode(['\\', letter] + rest) == [ShortEscape(letter)] + Decode(rest)
  {
    assert (['\\', letter] + rest)[2..] == rest;
  }

  lemma DecodeCode(digits: string, rest: string)
    requires |digits| == 4
    ensures Hex(digits) <= 0xFFFF
    ensures var (cp, taken) := CodePoint(Hex(digits), rest);
      Decode(['\\', 'u'] + digits + rest) == Utf8(cp) + Decode(rest[taken..])
  {
    var all := ['\\', 'u'] + digits + rest;
    HexBound(digits);
    assert all[2..6] == digits && all[6..] == rest;
    var (cp, taken) := CodePoint(Hex(digits), rest);
    assert all[6 + taken..] == rest[taken..];
  }

  lemma LowFollowsIff(units: seq<Unit>)
    requires AllUnits(units)
    ensures LowFollows(Spell(units)) <==> units != [] && units[0].Code? && IsLow(Hex(units[0].digits))
    ensures units != [] && units[0].Code? ==> |Spell(units)| >= 6 && Spell(units)[2..6] == units[0].digits
    ensures units != [] && units[0].Code? ==> Spell(units)[6..] == Spell(units[1..])
  {
    if units != [] && units[0].Code? {
      var text := Spell(units);
      assert text == ['\\', 'u'] + units[0].digits + Spell(units[1..]);
      assert text[2..6] == units[0].digits;
    }
  }

  /** The decoder gives every well-formed body its meaning, surrogate pairs included. */
  lemma {:induction false} DecodeMeans(units: seq<Unit>)
    requires AllUnits(units)
    ensures Decode(Spell(units)) == Meaning(units)
    decreases |units|
  {
    if units != [] {
      var rest := Spell(units[1..]);
      DecodeMeans(units[1..]);
      match units[0]
      case Plain(c) => DecodePlain(c, rest);
      case Short(letter) => DecodeShort(letter, rest);
      case Code(digits) =>
        DecodeCode(digits, rest);
        LowFollowsIff(units[1..]);
        if IsPair(units) {
          DecodeMeans(units[2..]);
          assert units[1..][1..] == units[2..];
        } else {
          assert rest[0..] == rest;
        }
    }
  }

  /** The code point of a UTF-8 sequence, by its lead byte (RFC 3629 section 3). */
  function FromUtf8(bytes: string): int
    requires 1 <= |bytes| <= 4
  {
    var b := bytes[0] as int;
    if |bytes| == 1 then b
    else if |bytes| == 2 then (b - 0xC0) * 0x40 + (bytes[1] as int - 0x80)
    else if |bytes| == 3 then (b - 0xE0) * 0x1000 + (bytes[1] as int - 0x80) * 0x40 + (bytes[2] as int - 0x80)
    else (b - 0xF0) * 0x40000 + (bytes[1] as int - 0x80) * 0x1000 + (bytes[2] as int - 0x80) * 0x40 + (bytes[3] as int - 0x80)
  }

  /** Each code point has one encoding: reading its bytes back gives it. */
  lemma Utf8Inverse(cp: nat)
    requires cp <= 0x10FFFF
    ensures FromUtf8(Utf8(cp)) == cp
  {
    Digits64(cp);
  }

  lemma Digits64(cp: nat)
    ensures cp == cp / 0x40 * 0x40 + cp % 0x40
    ensures cp / 0x40 == cp / 0x1000 * 0x40 + cp / 0x40 % 0x40
    ensures cp / 0x1000 == cp / 0x40000 * 0x40 + cp / 0x1000 % 0x40
  {
    assert cp / 0x1000 == cp / 0x40 / 0x40;
    assert cp / 0x40000 == cp / 0x1000 / 0x40;
  }

  // ---------------------------------------------------------------- the two procedures

  method AppendEscaped(sb: StrBuf.Buffer, c: char)
    requires sb.Valid() && c != '\0'
    modifies sb, sb.data
    ensures sb.Valid() && sb.Terminated() && (sb.data == old(sb.data) || fresh(sb.data))
    ensures sb.Contents() == old(sb.Contents()) + Escaped(c)
  {
    if c == '"' || c == '\\' {
      sb.AppendN(['\\', c]);
    } else if c as int == 0x08 {
      sb.AppendN(['\\', 'b']);
    } else if c as int == 0x0C {
      sb.AppendN(['\\', 'f']);
    } else if c == '\n' {
      sb.AppendN(['\\', 'n']);
    } else if c == '\r' {
      sb.AppendN(['\\', 'r']);
    } else if c == '\t' {
      sb.AppendN(['\\', 't']);
    } else if c as int < 0x20 {
      sb.AppendN(['\\', 'u', '0', '0', HexDigit(c as int / 16), HexDigit(c as int % 16)]);
    } else {
      sb.AppendChar(c);
    }
  }

  /** sb_append_json_string; None stands for the null pointer. */
  method AppendJsonString(sb: StrBuf.Buffer, src: Option<string>)
    requires sb.Valid() && (src.Some? ==> '\0' !in src.value)
    modifies sb, sb.data
    ensures sb.Valid() && sb.Terminated()
    ensures sb.Contents() == old(sb.Contents()) + if src.Some? then Quoted(Escape(src.value)) else "null"
  {
    if src.None? {
      sb.AppendN("null");
      return;
    }
    hide Escape, Escaped;
    var text := src.value;
    sb.AppendChar('"');
    ghost var head := sb.Contents();
    for i := 0 to |text|
      invariant sb.Valid() && sb.Terminated() && (sb.data == old(sb.data) || fresh(sb.data))
      invariant '\0' !in text[..i] && sb.Contents() == head + Escape(text[..i])
    {
      EscapeNext(text, i);
      AppendEscaped(sb, text[i]);
    }
    assert text[..|text|] == text;
    sb.AppendChar('"');
    QuotedFrom(old(sb.Contents()), Escape(text));
  }

  lemma QuotedFrom(head: string, body: string)
    ensures head + ['"'] + body + ['"'] == head + Quoted(body)
  {
  }

  lemma EscapeNext(text: string, i: nat)
    requires i < |text| && '\0' !in text
    ensures '\0' !in text[..i] && '\0' !in text[..i + 1] && text[i] != '\0'
    ensures forall head :: head + Escape(text[..i]) + Escaped(text[i]) == head + Escape(text[..i + 1])
    ensures Escape(text[..0]) == ""
  {
    assert text[i] in text;
    assert text[..i + 1] == text[..i] + [text[i]];
    EscapeSplit(text[..i], [text[i]]);
    assert [text[i]][1..] == [];
    assert Escape([text[i]]) == Escaped(text[i]) + "";
    forall head: string
      ensures head + Escape(text[..i]) + Escaped(text[i]) == head + Escape(text[..i + 1])
    {
    }
  }

  lemma {:induction false} EscapeSplit(a: string, b: string)
    requires '\0' !in a && '\0' !in b
    ensures '\0' !in a + b && Escape(a + b) == Escape(a) + Escape(b)
  {
    hide Escaped;
    if a == "" {
      assert a + b == b;
    } else {
      EscapeSplit(a[1..], b);
      assert (a + b)[1..] == a[1..] + b && (a + b)[0] == a[0];
      assert Escape(a + b) == Escaped(a[0]) + (Escape(a[1..]) + Escape(b));
    }
  }

  /** Four hexadecimal digits, fewer when the body ends; `i` is the position behind `u`. */
  method ReadDigits(src: string, i: nat, end: nat) returns (cp: nat, j: nat, valid: bool)
    requires i <= end <= |src|
    ensures j == i + Min(4, end - i) && cp == Hex(src[i..j]) && valid == AllHex(src[i..j])
  {
    hide Hex, AllHex, HexValue;
    HexAppend("", '0');
    assert src[i..i] == "";
    cp, j, valid := 0, i, true;
    while j < i + 4 && j < end
      invariant i <= j <= end && j <= i + 4
      invariant cp == Hex(src[i..j]) && valid == AllHex(src[i..j])
    {
      assert src[i..j + 1] == src[i..j] + [src[j]];
      HexAppend(src[i..j], src[j]);
      cp := cp * 16 + HexValue(src[j]);
      valid := valid && IsHex(src[j]);
      j := j + 1;
    }
  }

  method Put(buf: array<char>, out: nat, bytes: string)
    requires out + |bytes| <= buf.Length
    modifies buf
    ensures buf[..out + |bytes|] == old(buf[..out]) + bytes
  {
    for k := 0 to |bytes|
      invariant buf[..out + k] == old(buf[..out]) + bytes[..k]
    {
      buf[out + k] := bytes[k];
    }
  }

  lemma SliceOfSlice(src: string, i: nat, end: nat, a: nat, b: nat)
    requires i <= end <= |src| && a <= b <= end - i
    ensures src[i..end][a..b] == src[i + a..i + b]
    ensures src[i..end][a..] == src[i + a..end]
  {
    var inner := src[i..end];
    assert forall k :: 0 <= k < b - a ==> inner[a..b][k] == src[i + a..i + b][k];
    assert forall k :: 0 <= k < end - i - a ==> inner[a..][k] == src[i + a..end][k];
  }

  /** Behind the digits of `u`, at position k: the digits of a low surrogate, when they are wanted. */
  method ReadCodePoint(src: string, k: nat, end: nat, first: nat) returns (cp: nat, j: nat)
    requires k <= end < |src| && src[end] == '"' && first <= 0xFFFF
    ensures k <= j <= end && (cp, j - k) == CodePoint(first, src[k..end])
  {
    cp, j := first, k;
    ghost var rest := src[k..end];
    if IsHigh(first) && k < end && src[k] == '\\' && src[k + 1] == 'u' {
      var low, m, digits := ReadDigits(src, k + 2, end);
      SliceOfSlice(src, k, end, 2, 2 + Min(4, end - k - 2));
      assert LowFollows(rest) <==> digits && IsLow(low);
      if digits && IsLow(low) {
        LowIsFourDigits(rest);
        cp := Pair(first, low);
        j := m;
      }
    }
  }

  lemma UnicodeFits(body: string)
    requires |body| >= 2
    ensures |Utf8(UnicodeAt(body).0)| <= UnicodeAt(body).1
  {
    hide Utf8, Hex, CodePoint, Min;
    var n := 2 + Min(4, |body| - 2);
    MinBound(|body| - 2);
    HexBound(body[2..n]);
    CodePointFrom(Hex(body[2..n]), body[n..]);
    Utf8Fits(UnicodeAt(body).0, n, UnicodeAt(body).1 - n, Hex(body[2..n]));
  }

  lemma MinBound(b: nat)
    ensures Min(4, b) <= 4 && Min(4, b) <= b && (b >= 4 ==> Min(4, b) == 4) && (b < 4 ==> Min(4, b) == b)
  {
  }

  lemma DecodeUnfold(body: string)
    requires |body| >= 2 && body[0] == '\\' && body[1] == 'u'
    ensures var (cp, width) := UnicodeAt(body);
      Decode(body) == Utf8(cp) + Decode(body[width..]) && |Utf8(cp)| <= width
  {
    hide Utf8, UnicodeAt, ShortEscape;
    UnicodeFits(body);
  }

  /** A `u` escape at position i. */
  method DecodeUnicode(src: string, i: nat, end: nat) returns (bytes: string, j: nat)
    requires i + 2 <= end < |src| && src[end] == '"' && src[i] == '\\' && src[i + 1] == 'u'
    ensures i < j <= end
    ensures Decode(src[i..end]) == bytes + Decode(src[j..end])
    ensures |bytes| <= j - i
  {
    hide Decode, Hex, CodePoint, Utf8, AllHex;
    var first, k, valid := ReadDigits(src, i + 2, end);
    ghost var n := 2 + Min(4, end - i - 2);
    DecodeUnfold(src[i..end]);
    SliceOfSlice(src, i, end, 2, n);
    SliceOfSlice(src, i, end, n, n);
    HexBound(src[i + 2..i + n]);
    var cp, j' := ReadCodePoint(src, k, end, first);
    SliceOfSlice(src, i, end, j' - i, j' - i);
    bytes, j := Utf8(cp), j';
  }

  /** What one step of the decoder reads and writes, at position i of the body src[start..end]. */
  method DecodeOne(src: string, i: nat, end: nat) returns (bytes: string, j: nat)
    requires i < end < |src| && src[end] == '"'
    ensures i < j <= end
    ensures Decode(src[i..end]) == bytes + Decode(src[j..end])
    ensures |bytes| <= j - i
  {
    if src[i] != '\\' {
      SliceOfSlice(src, i, end, 1, 1);
      return [src[i]], i + 1;
    }
    if i + 1 == end {
      assert src[end..end] == "";
      return [src[end]], end;
    }
    if src[i + 1] == 'u' {
      bytes, j := DecodeUnicode(src, i, end);
      return;
    }
    SliceOfSlice(src, i, end, 2, 2);
    return [ShortEscape(src[i + 1])], i + 2;
  }

  /**
   json_string_val on a span the parser returned: the buffer of twice the body's length holds
   the decoded bytes and the terminating zero.
   */
  method JsonStringVal(src: string, start: nat) returns (buf: array<char>, out: nat)
    requires ParseString(src, start).Ok?
    ensures fresh(buf) && out < buf.Length && buf[out] == '\0'
    ensures buf[..out] == Decode(src[start + 1..ParseString(src, start).end - 1])
  {
    hide Decode, ParseString, SkipBody;
    var end := ParseString(src, start).end - 1;
    ClosingQuote(src, start);
    var i := start + 1;
    var len := end - i;
    buf := new char[len * 2 + 1];
    out := 0;
    while i < end
      invariant start + 1 <= i <= end && out <= i - (start + 1)
      invariant Decode(src[start + 1..end]) == buf[..out] + Decode(src[i..end])
    {
      var bytes, j := DecodeOne(src, i, end);
      ghost var was := buf[..out];
      Put(buf, out, bytes);
      assert was + (bytes + Decode(src[j..end])) == was + bytes + Decode(src[j..end]);
      out := out + |bytes|;
      i := j;
    }
    NothingLeft(src, end);
    buf[out] := '\0';
  }

  lemma NothingLeft(src: string, end: nat)
    requires end <= |src|
    ensures Decode(src[end..end]) == ""
  {
  }

  lemma ClosingQuote(src: string, start: nat)
    requires ParseString(src, start).Ok?
    ensures var end := ParseString(src, start).end - 1; start + 1 <= end < |src| && src[end] == '"'
  {
  }
}
