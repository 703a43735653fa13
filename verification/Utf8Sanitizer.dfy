/**
 The C client's UTF-8 sanitizer: what it replaces and what it lets pass, which is more than
 RFC 3629 allows.
 */
module Utf8Sanitizer {
  import StrBuf
  import JsonString

  const REPLACEMENT := "\\ufffd"

  predicate IsTail(c: char) {
    0x80 <= c as int <= 0xBF
  }

  predicate Tails(s: string, n: nat) {
    |s| > n && forall i :: 1 <= i <= n ==> IsTail(s[i])
  }

  /**
   The length of the sequence at a position, or 0 where the code replaces the byte by the six
   characters of a JSON escape. It looks at lead bytes and at how many continuation bytes
   follow, not at the narrower ranges that some lead bytes allow.
   */
  function LooseWidthAt(s: string, p: nat): (w: nat)
    requires p < |s|
    ensures p + w <= |s|
  {
    var b := s[p] as int;
    if b < 0x80 then 1
    else if 0xC2 <= b <= 0xDF && p + 1 < |s| && IsTail(s[p + 1]) then 2
    else if 0xE0 <= b <= 0xEF && p + 2 < |s| && IsTail(s[p + 1]) && IsTail(s[p + 2]) then 3
    else if 0xF0 <= b <= 0xF4 && p + 3 < |s| && IsTail(s[p + 1]) && IsTail(s[p + 2]) && IsTail(s[p + 3]) then 4
    else 0
  }

  /** At the beginning of s. */
  function LooseWidth(s: string): (w: nat)
    requires s != ""
    ensures w <= |s|
  {
    LooseWidthAt(s, 0)
  }

  function Sanitize(s: string): string
    decreases |s|
  {
    if s == "" then ""
    else if LooseWidth(s) == 0 then REPLACEMENT + Sanitize(s[1..])
    else s[..LooseWidth(s)] + Sanitize(s[LooseWidth(s)..])
  }

  /** What the sanitizer takes for UTF-8. */
  predicate Loose(s: string)
    decreases |s|
  {
    s == "" || (LooseWidth(s) > 0 && Loose(s[LooseWidth(s)..]))
  }

  /** Whether a sequence is taken depends on its own bytes only. */
  lemma WidthIsLocal(s: string, rest: string)
    requires s != "" && LooseWidth(s) > 0
    ensures LooseWidth(s[..LooseWidth(s)] + rest) == LooseWidth(s)
  {
  }

  lemma {:induction false} AsciiIsLoose(a: string, s: string)
    requires forall i :: 0 <= i < |a| ==> a[i] as int < 0x80
    ensures Loose(a + s) == Loose(s)
    decreases |a|
  {
    if a == "" {
      assert a + s == s;
    } else {
      AsciiIsLoose(a[1..], s);
      assert (a + s)[1..] == a[1..] + s && (a + s)[0] == a[0];
    }
  }

  lemma {:induction false} SanitizedIsLoose(s: string)
    ensures Loose(Sanitize(s))
    decreases |s|
  {
    if s != "" {
      var w := LooseWidth(s);
      if w == 0 {
        SanitizedIsLoose(s[1..]);
        AsciiIsLoose(REPLACEMENT, Sanitize(s[1..]));
      } else {
        SanitizedIsLoose(s[w..]);
        WidthIsLocal(s, Sanitize(s[w..]));
        assert (s[..w] + Sanitize(s[w..]))[w..] == Sanitize(s[w..]);
      }
    }
  }

  lemma {:induction false} LooseIsKept(s: string)
    requires Loose(s)
    ensures Sanitize(s) == s
    decreases |s|
  {
    if s != "" {
      var w := LooseWidth(s);
      LooseIsKept(s[w..]);
      assert s == s[..w] + s[w..];
    }
  }

  /**
   The output is always a fixed point, so sanitizing twice is sanitizing once; and a text is
   left as it is exactly when it is what the sanitizer takes for UTF-8.
   */
  lemma FixedPointIff(s: string)
    ensures Sanitize(s) == s <==> Loose(s)
    ensures Sanitize(Sanitize(s)) == Sanitize(s)
  {
    SanitizedIsLoose(s);
    LooseIsKept(Sanitize(s));
    if Loose(s) {
      LooseIsKept(s);
    }
  }

  /** What stands for a replaced byte is the JSON escape of the replacement character U+FFFD. */
  lemma ReplacementReads(rest: string)
    ensures JsonString.Decode(REPLACEMENT + rest) == JsonString.Utf8(0xFFFD) + JsonString.Decode(rest)
  {
    hide JsonString.Hex, JsonString.Utf8;
    var all := REPLACEMENT + rest;
    JsonString.HexAppend("", 'f');
    JsonString.HexAppend("f", 'f');
    JsonString.HexAppend("ff", 'f');
    JsonString.HexAppend("fff", 'd');
    assert "" + ['f'] == "f" && "f" + ['f'] == "ff" && "ff" + ['f'] == "fff" && "fff" + ['d'] == "fffd";
    assert all[2..6] == "fffd" && all[6..] == rest && all[6 + 0..] == rest;
  }

  lemma {:induction false} LengthBound(s: string)
    ensures |Sanitize(s)| <= 6 * |s|
    decreases |s|
  {
    if s != "" {
      var w := LooseWidth(s);
      LengthBound(s[if w == 0 then 1 else w..]);
    }
  }

  // ---------------------------------------------------------------- UTF-8 proper

  /** The length of the character that begins s by the table of RFC 3629 section 4, or 0. */
  function StrictWidth(s: string): (w: nat)
    requires s != ""
    ensures w <= |s|
  {
    var b := s[0] as int;
    if b < 0x80 then 1
    else if 0xC2 <= b <= 0xDF then if Tails(s, 1) then 2 else 0
    else if 0xE0 <= b <= 0xEF then
      if Tails(s, 2) && (b == 0xE0 ==> s[1] as int >= 0xA0) && (b == 0xED ==> s[1] as int <= 0x9F) then 3 else 0
    else if 0xF0 <= b <= 0xF4 then
      if Tails(s, 3) && (b == 0xF0 ==> s[1] as int >= 0x90) && (b == 0xF4 ==> s[1] as int <= 0x8F) then 4 else 0
    else 0
  }

  predicate IsUtf8(s: string)
    decreases |s|
  {
    s == "" || (StrictWidth(s) > 0 && IsUtf8(s[StrictWidth(s)..]))
  }

  lemma {:induction false} Utf8IsLoose(s: string)
    requires IsUtf8(s)
    ensures Loose(s)
    decreases |s|
  {
    if s != "" { Utf8IsLoose(s[StrictWidth(s)..]); }
  }

  /** Every valid UTF-8 text is left as it is. */
  lemma Utf8IsUnchanged(s: string)
    requires IsUtf8(s)
    ensures Sanitize(s) == s
  {
    Utf8IsLoose(s);
    LooseIsKept(s);
  }

  /** The second byte of a sequence is in the range that its lead byte allows. */
  predicate SecondFits(s: string, p: nat)
    requires p < |s| && LooseWidthAt(s, p) > 0
  {
    match s[p] as int
    case 0xE0 => s[p + 1] as int >= 0xA0
    case 0xED => s[p + 1] as int <= 0x9F
    case 0xF0 => s[p + 1] as int >= 0x90
    case 0xF4 => s[p + 1] as int <= 0x8F
    case _ => true
  }

  /** A sequence passes without being valid exactly when it needs a narrower second byte. */
  lemma LooseButNotUtf8Iff(s: string)
    requires s != "" && LooseWidth(s) > 0
    ensures StrictWidth(s) == (if SecondFits(s, 0) then LooseWidth(s) else 0)
  {
  }

  /** Wherever a sequence passes, its second byte is in range. */
  predicate SecondsFit(s: string) {
    forall p :: 0 <= p < |s| && LooseWidthAt(s, p) > 0 ==> SecondFits(s, p)
  }

  lemma WidthAtSuffix(s: string, k: nat, p: nat)
    requires k + p < |s|
    ensures LooseWidthAt(s[k..], p) == LooseWidthAt(s, k + p)
    ensures LooseWidthAt(s, k + p) > 0 ==> (SecondFits(s[k..], p) <==> SecondFits(s, k + p))
  {
  }

  /** No sequence begins inside another one. */
  lemma NothingInside(s: string, p: nat)
    requires s != "" && 0 < p < LooseWidth(s)
    ensures LooseWidthAt(s, p) == 0
  {
  }

  lemma SecondsFitNext(s: string)
    requires s != ""
    ensures var w := LooseWidth(s);
      SecondsFit(s) <==> (w > 0 ==> SecondFits(s, 0)) && SecondsFit(s[if w == 0 then 1 else w..])
  {
    hide LooseWidthAt, SecondFits;
    var w := LooseWidth(s);
    var k := if w == 0 then 1 else w;
    if SecondsFit(s) {
      forall p | 0 <= p < |s[k..]| && LooseWidthAt(s[k..], p) > 0
        ensures SecondFits(s[k..], p)
      {
        WidthAtSuffix(s, k, p);
        assert SecondFits(s, k + p);
      }
    }
    if (w > 0 ==> SecondFits(s, 0)) && SecondsFit(s[k..]) {
      forall p | 0 <= p < |s| && LooseWidthAt(s, p) > 0
        ensures SecondFits(s, p)
      {
        if p >= k {
          WidthAtSuffix(s, k, p - k);
        } else if p > 0 {
          NothingInside(s, p);
        }
      }
    }
  }

  lemma {:induction false} AsciiKeepsUtf8(a: string, s: string)
    requires forall i :: 0 <= i < |a| ==> a[i] as int < 0x80
    ensures IsUtf8(a + s) == IsUtf8(s)
    decreases |a|
  {
    if a == "" {
      assert a + s == s;
    } else {
      AsciiKeepsUtf8(a[1..], s);
      assert (a + s)[1..] == a[1..] + s && (a + s)[0] == a[0];
    }
  }

  lemma SequenceKeepsUtf8(s: string, rest: string)
    requires s != "" && LooseWidth(s) > 0
    ensures IsUtf8(s[..LooseWidth(s)] + rest) <==> SecondFits(s, 0) && IsUtf8(rest)
  {
    var w := LooseWidth(s);
    var t := s[..w] + rest;
    WidthIsLocal(s, rest);
    LooseButNotUtf8Iff(t);
    assert t[w..] == rest && t[0] == s[0] && (w > 1 ==> t[1] == s[1]);
  }

  /**
   The output is valid UTF-8 exactly when no sequence of the input that passes has its second
   byte out of range: then only such sequences, overlong forms, surrogates and values beyond
   the last code point, are what the sanitizer lets through.
   */
  lemma {:induction false} SanitizedIsUtf8Iff(s: string)
    ensures IsUtf8(Sanitize(s)) <==> SecondsFit(s)
    decreases |s|
  {
    hide IsUtf8, SecondsFit, SecondFits, StrictWidth, LooseWidth;
    if s == "" {
      EmptyIsUtf8();
    } else {
      var w := LooseWidth(s);
      SecondsFitNext(s);
      if w == 0 {
        SanitizedIsUtf8Iff(s[1..]);
        AsciiKeepsUtf8(REPLACEMENT, Sanitize(s[1..]));
      } else {
        SanitizedIsUtf8Iff(s[w..]);
        SequenceKeepsUtf8(s, Sanitize(s[w..]));
      }
    }
  }

  lemma EmptyIsUtf8()
    ensures IsUtf8("") && SecondsFit("")
  {
  }

  predicate IsScalar(cp: nat) {
    cp <= 0x10FFFF && !(0xD800 <= cp <= 0xDFFF)
  }

  /** The JSON decoder's encoding of a code point is one valid character exactly when the code point is no surrogate. */
  lemma EncodedIsUtf8Iff(cp: nat, rest: string)
    requires cp <= 0x10FFFF
    ensures StrictWidth(JsonString.Utf8(cp) + rest) == |JsonString.Utf8(cp)| <==> IsScalar(cp)
    ensures LooseWidth(JsonString.Utf8(cp) + rest) == |JsonString.Utf8(cp)|
  {
    var bytes := JsonString.Utf8(cp);
    var s := bytes + rest;
    assert s[..|bytes|] == bytes;
    if |bytes| == 3 {
      SecondByte(cp);
    } else if |bytes| == 4 {
      SecondOfFour(cp);
    }
  }

  lemma SecondByte(cp: nat)
    requires 0x800 <= cp < 0x10000
    ensures 0 <= cp / 0x1000 <= 15
    ensures cp / 0x1000 == 0 ==> 0x20 <= cp / 0x40 % 0x40
    ensures cp / 0x1000 == 13 ==> (cp / 0x40 % 0x40 >= 0x20 <==> 0xD800 <= cp)
    ensures 0xD800 <= cp <= 0xDFFF ==> cp / 0x1000 == 13
    ensures cp / 0x1000 == 13 ==> cp <= 0xDFFF
  {
    JsonString.Digits64(cp);
  }

  lemma SecondOfFour(cp: nat)
    requires 0x10000 <= cp <= 0x10FFFF
    ensures 0 <= cp / 0x40000 <= 4
    ensures cp / 0x40000 == 0 ==> cp / 0x1000 % 0x40 >= 0x10
    ensures cp / 0x40000 == 4 ==> cp / 0x1000 % 0x40 <= 0xF
  {
    JsonString.Digits64(cp);
  }

  // ---------------------------------------------------------------- the sanitizer as it runs

  /** One step at position p: the bytes appended and the bytes consumed. */
  method SanitizeOne(sb: StrBuf.Buffer, s: string, p: nat) returns (next: nat)
    requires sb.Valid() && p < |s|
    modifies sb, sb.data
    ensures sb.Valid() && sb.Terminated() && (sb.data == old(sb.data) || fresh(sb.data))
    ensures p < next <= |s|
    ensures sb.Contents() + Sanitize(s[next..]) == old(sb.Contents()) + Sanitize(s[p..])
  {
    hide Sanitize;
    SanitizeAt(s, p);
    var b := s[p] as int;
    if b < 0x80 {
      sb.AppendChar(s[p]);
      assert s[p..p + 1] == [s[p]];
      return p + 1;
    }
    if 0xC2 <= b <= 0xDF && p + 1 < |s| && IsTail(s[p + 1]) {
      sb.AppendN(s[p..p + 2]);
      return p + 2;
    }
    if 0xE0 <= b <= 0xEF && p + 2 < |s| && IsTail(s[p + 1]) && IsTail(s[p + 2]) {
      sb.AppendN(s[p..p + 3]);
      return p + 3;
    }
    if 0xF0 <= b <= 0xF4 && p + 3 < |s| && IsTail(s[p + 1]) && IsTail(s[p + 2]) && IsTail(s[p + 3]) {
      sb.AppendN(s[p..p + 4]);
      return p + 4;
    }
    sb.AppendN(REPLACEMENT);
    return p + 1;
  }

  lemma SanitizeAt(s: string, p: nat)
    requires p < |s|
    ensures var w := LooseWidth(s[p..]);
      && p + w <= |s|
      && (w == 0 ==> forall head: string :: head + REPLACEMENT + Sanitize(s[p + 1..]) == head + Sanitize(s[p..]))
      && (w > 0 ==> forall head: string :: head + s[p..p + w] + Sanitize(s[p + w..]) == head + Sanitize(s[p..]))
    ensures LooseWidth(s[p..]) == LooseWidthAt(s, p)
  {
    var w := LooseWidth(s[p..]);
    assert s[p..][1..] == s[p + 1..];
    assert s[p..][..w] == s[p..p + w] && s[p..][w..] == s[p + w..];
  }

  /** The buffer is terminated once anything was appended; for the empty text nothing is. */
  method SanitizeUtf8(src: string) returns (sb: StrBuf.Buffer)
    ensures fresh(sb) && sb.Valid() && sb.Contents() == Sanitize(src)
    ensures |sb.Contents()| <= 6 * |src|
    ensures src != "" ==> sb.Terminated()
  {
    hide Sanitize;
    sb := new StrBuf.Buffer();
    sb.Ensure(|src| * 6 + 1);
    var p := 0;
    assert src[0..] == src;
    while p < |src|
      invariant p <= |src| && fresh(sb) && sb.Valid() && fresh(sb.data)
      invariant p > 0 ==> sb.Terminated()
      invariant sb.Contents() + Sanitize(src[p..]) == Sanitize(src)
      decreases |src| - p
    {
      p := SanitizeOne(sb, src, p);
    }
    SanitizeNothing(src);
    LengthBound(src);
  }

  lemma SanitizeNothing(s: string)
    ensures Sanitize(s[|s|..]) == ""
  {
  }
}
