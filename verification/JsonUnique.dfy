/** A JSON text has one tree: the grammar of the trees is unambiguous. */
module JsonUnique {
  import opened JsonTree
  import opened JsonSpan
  import opened Options

  lemma OneStart(src: string, pos: nat, a: string, b: string)
    requires Starts(src, pos, a) && Starts(src, pos, b) && |a| == |b|
    ensures a == b
  {
  }

  // ---------------------------------------------------------------- numbers

  lemma OneSign(src: string, pos: nat, n: Numeral)
    requires SpellsNumeral(src, pos, n) && IsNumeral(n)
    ensures n.minus <==> At(src, pos) == '-'
  {
    if !n.minus {
      StartsAt(src, pos, n.whole);
    }
  }

  /** Where the parts of a number end. */
  function ExponentAt(pos: nat, n: Numeral): nat {
    pos + |n.whole| + if n.fraction.Some? then 1 + |n.fraction.value| else 0
  }

  function ExponentWidth(n: Numeral): nat {
    if n.exponent.Some? then 1 + |n.exponent.value.sign| + |n.exponent.value.digits| else 0
  }

  lemma ExponentOverAt(src: string, p: nat, n: Numeral)
    requires SpellsExponent(src, ExponentAt(p, n), n.exponent) && (n.exponent.Some? ==> IsExponent(n.exponent.value))
    requires Follows(At(src, ExponentAt(p, n) + ExponentWidth(n)))
    ensures n.exponent.Some? <==> At(src, ExponentAt(p, n)) in {'e', 'E'}
    ensures !IsDigit(At(src, ExponentAt(p, n))) && At(src, ExponentAt(p, n)) != '.'
  {
    ExponentPartOver(src, ExponentAt(p, n), n.exponent);
  }

  lemma PartsOver(src: string, pos: nat, n: Numeral)
    requires SpellsNumeral(src, pos, n) && IsNumeral(n) && Follows(At(src, pos + NumeralWidth(n)))
    ensures var p := if n.minus then pos + 1 else pos;
      && SkipDigits(src, p) == p + |n.whole|
      && SkipFraction(src, p + |n.whole|) == ExponentAt(p, n)
      && (n.fraction.Some? <==> At(src, p + |n.whole|) == '.')
      && (n.exponent.Some? <==> At(src, ExponentAt(p, n)) in {'e', 'E'})
  {
    hide Starts, SkipDigits, SkipFraction, Follows, IsDigit, At, AllDigits, SpellsExponent, IsExponent;
    var p := if n.minus then pos + 1 else pos;
    ExponentOverAt(src, p, n);
    FractionOver(src, p + |n.whole|, n.fraction);
    DigitsOver(src, p, n.whole);
  }

  lemma OneExponent(src: string, pos: nat, e: Exponent, f: Exponent)
    requires SpellsExponent(src, pos, Some(e)) && IsExponent(e) && Follows(At(src, pos + 1 + |e.sign| + |e.digits|))
    requires SpellsExponent(src, pos, Some(f)) && IsExponent(f) && Follows(At(src, pos + 1 + |f.sign| + |f.digits|))
    ensures e == f
  {
    hide SkipDigits, AllDigits;
    SignOf(src, pos, e);
    SignOf(src, pos, f);
    DigitsOver(src, pos + 1 + |e.sign|, e.digits);
    DigitsOver(src, pos + 1 + |f.sign|, f.digits);
    OneStart(src, pos + 1 + |e.sign|, e.digits, f.digits);
  }

  lemma SignOf(src: string, pos: nat, e: Exponent)
    requires SpellsExponent(src, pos, Some(e)) && IsExponent(e) && Follows(At(src, pos + 1 + |e.sign| + |e.digits|))
    ensures e.sign == if At(src, pos + 1) == '+' then "+" else if At(src, pos + 1) == '-' then "-" else ""
  {
    if e.sign != "" {
      StartsAt(src, pos + 1, e.sign);
    } else if e.digits != "" {
      StartsAt(src, pos + 1, e.digits);
    }
  }

  lemma NumeralShape(src: string, pos: nat, n: Numeral)
    requires SpellsNumeral(src, pos, n) && IsNumeral(n) && Follows(At(src, pos + NumeralWidth(n)))
    ensures var p := if n.minus then pos + 1 else pos;
      && Starts(src, p, n.whole)
      && (n.fraction.Some? ==> Starts(src, p + |n.whole| + 1, n.fraction.value))
      && SpellsExponent(src, ExponentAt(p, n), n.exponent)
      && (n.exponent.Some? ==>
            && IsExponent(n.exponent.value)
            && Follows(At(src, ExponentAt(p, n) + 1 + |n.exponent.value.sign| + |n.exponent.value.digits|)))
  {
    hide Starts, Follows;
  }

  lemma OneFraction(src: string, p: nat, n: Numeral, m: Numeral)
    requires n.whole == m.whole && (n.fraction.Some? <==> m.fraction.Some?) && ExponentAt(p, n) == ExponentAt(p, m)
    requires n.fraction.Some? ==> Starts(src, p + |n.whole| + 1, n.fraction.value)
    requires m.fraction.Some? ==> Starts(src, p + |m.whole| + 1, m.fraction.value)
    ensures n.fraction == m.fraction
  {
  }

  lemma OneNumeral(src: string, pos: nat, n: Numeral, m: Numeral)
    requires SpellsNumeral(src, pos, n) && IsNumeral(n) && Follows(At(src, pos + NumeralWidth(n)))
    requires SpellsNumeral(src, pos, m) && IsNumeral(m) && Follows(At(src, pos + NumeralWidth(m)))
    ensures n == m
  {
    hide Starts, SkipDigits, SkipFraction, SpellsNumeral, IsNumeral, SpellsExponent, IsExponent, Follows, NumeralWidth, At;
    OneSign(src, pos, n);
    OneSign(src, pos, m);
    PartsOver(src, pos, n);
    PartsOver(src, pos, m);
    NumeralShape(src, pos, n);
    NumeralShape(src, pos, m);
    var p := if n.minus then pos + 1 else pos;
    OneStart(src, p, n.whole, m.whole);
    OneFraction(src, p, n, m);
    if n.exponent.Some? {
      OneExponent(src, ExponentAt(p, n), n.exponent.value, m.exponent.value);
    }
  }

  // ---------------------------------------------------------------- values

  /** What stands at a place is the text of one legal value at most. */
  lemma {:induction false} OneValue(src: string, pos: nat, v: Json, w: Json)
    requires Spells(src, pos, v) && Legal(v) && Follows(At(src, pos + Width(v)))
    requires Spells(src, pos, w) && Legal(w) && Follows(At(src, pos + Width(w)))
    ensures v == w
    decreases v, 2
  {
    hide ParseValue, SpellsItems, SpellsMembers, LegalItems, LegalMembers, SpellsNumeral, IsNumeral, IsBody;
    ValueOver(src, pos, v);
    ValueOver(src, pos, w);
    assert KindOf(v) == KindOf(w) && Width(v) == Width(w);
    match v
    case Null =>
    case Bool(_) =>
    case Number(n) => OneNumeral(src, pos, n, w.numeral);
    case String(body) => OneStart(src, pos + 1, body, w.body);
    case Array(_, _) => OneArray(src, pos, v, w);
    case Object(_, _) => OneObject(src, pos, v, w);
  }

  lemma {:induction false} OneArray(src: string, pos: nat, v: Json, w: Json)
    requires v.Array? && Spells(src, pos, v) && Legal(v)
    requires w.Array? && Spells(src, pos, w) && Legal(w)
    ensures v == w
    decreases v, 1
  {
    hide SpellsItems, LegalItems, Spells, Legal, Starts, AllWs, Width, ItemsWidth, SkipWs;
    ArrayShape(src, pos, v);
    ArrayShape(src, pos, w);
    FirstOfArray(src, pos, v);
    FirstOfArray(src, pos, w);
    if v.items.Item? && w.items.Item? {
      OneItems(src, pos + 1, v.items, w.items);
    } else {
      OneStart(src, pos + 1, v.pad, w.pad);
    }
  }

  /** Behind the bracket and white space stands the closing one exactly when there is no element. */
  lemma FirstOfArray(src: string, pos: nat, v: Json)
    requires v.Array? && Spells(src, pos, v) && Legal(v)
    ensures At(src, SkipWs(src, pos + 1)) == ']' <==> v.items == NoItem
    ensures v.items == NoItem ==> SkipWs(src, pos + 1) == pos + 1 + |v.pad|
  {
    hide SpellsItems, LegalItems, Spells, Legal, Starts, AllWs, Width, ItemsWidth, SkipWs;
    ArrayShape(src, pos, v);
    NoItemsWidth();
    if v.items == NoItem {
      WsOver(src, pos + 1, v.pad);
    } else {
      ItemShape(src, pos + 1, v.items);
      SpelledIsNotWs(src, pos + 1 + |v.items.before|, v.items.value);
      WsOver(src, pos + 1, v.items.before);
    }
  }

  lemma {:induction false} OneItems(src: string, pos: nat, a: Items, b: Items)
    requires a.Item? && LegalItems(a) && SpellsItems(src, pos, a) && At(src, pos + ItemsWidth(a)) == ']'
    requires b.Item? && LegalItems(b) && SpellsItems(src, pos, b) && At(src, pos + ItemsWidth(b)) == ']'
    ensures a == b
    decreases a
  {
    hide Spells, Legal, Starts, AllWs, Width, SkipWs, ParseValue, KindOf;
    ItemParts(src, pos, a);
    ItemParts(src, pos, b);
    var p := pos + |a.before|;
    OneStart(src, pos, a.before, b.before);
    OneValue(src, p, a.value, b.value);
    var q := p + Width(a.value);
    OneStart(src, q, a.after, b.after);
    if a.rest.Item? {
      OneItems(src, q + |a.after| + 1, a.rest, b.rest);
    }
  }

  lemma ItemParts(src: string, pos: nat, items: Items)
    requires items.Item? && LegalItems(items) && SpellsItems(src, pos, items) && At(src, pos + ItemsWidth(items)) == ']'
    ensures var p := pos + |items.before|;
      var q := p + Width(items.value);
      && SkipWs(src, pos) == p && SkipWs(src, q) == q + |items.after|
      && Starts(src, pos, items.before) && Spells(src, p, items.value) && Legal(items.value) && Follows(At(src, q))
      && Starts(src, q, items.after)
      && At(src, q + |items.after|) == (if items.rest.Item? then ',' else ']')
      && (items.rest.Item? ==>
            && LegalItems(items.rest) && SpellsItems(src, q + |items.after| + 1, items.rest)
            && At(src, q + |items.after| + 1 + ItemsWidth(items.rest)) == ']')
  {
    hide Spells, Legal, Starts, AllWs, Width, SkipWs, ParseValue, KindOf;
    ItemOver(src, pos, items);
    AfterValue(src, pos + |items.before| + Width(items.value), items.after);
  }

  lemma {:induction false} OneObject(src: string, pos: nat, v: Json, w: Json)
    requires v.Object? && Spells(src, pos, v) && Legal(v)
    requires w.Object? && Spells(src, pos, w) && Legal(w)
    ensures v == w
    decreases v, 1
  {
    hide SpellsMembers, LegalMembers, Spells, Legal, Starts, AllWs, Width, MembersWidth, SkipWs;
    ObjectShape(src, pos, v);
    ObjectShape(src, pos, w);
    FirstOfObject(src, pos, v);
    FirstOfObject(src, pos, w);
    if v.members.Member? && w.members.Member? {
      OneMembers(src, pos + 1, v.members, w.members);
    } else {
      OneStart(src, pos + 1, v.pad, w.pad);
    }
  }

  lemma FirstOfObject(src: string, pos: nat, v: Json)
    requires v.Object? && Spells(src, pos, v) && Legal(v)
    ensures At(src, SkipWs(src, pos + 1)) == '}' <==> v.members == NoMember
    ensures v.members == NoMember ==> SkipWs(src, pos + 1) == pos + 1 + |v.pad|
  {
    hide SpellsMembers, LegalMembers, Spells, Legal, Starts, AllWs, Width, MembersWidth, SkipWs;
    ObjectShape(src, pos, v);
    NoItemsWidth();
    if v.members == NoMember {
      WsOver(src, pos + 1, v.pad);
    } else {
      MemberShape(src, pos + 1, v.members);
      WsOver(src, pos + 1, v.members.before);
    }
  }

  lemma {:induction false} OneMembers(src: string, pos: nat, a: Members, b: Members)
    requires a.Member? && LegalMembers(a) && SpellsMembers(src, pos, a) && At(src, pos + MembersWidth(a)) == '}'
    requires b.Member? && LegalMembers(b) && SpellsMembers(src, pos, b) && At(src, pos + MembersWidth(b)) == '}'
    ensures a == b
    decreases a
  {
    hide Spells, Legal, Starts, AllWs, Width, SkipWs, SpellsKey, SpellsQuoted, IsBody;
    MemberParts(src, pos, a);
    MemberParts(src, pos, b);
    OneKey(src, pos, a, b);
    var p := pos + KeyWidth(a);
    OneValue(src, p, a.value, b.value);
    var q := p + Width(a.value);
    OneStart(src, q, a.after, b.after);
    if a.rest.Member? {
      OneMembers(src, q + |a.after| + 1, a.rest, b.rest);
    }
  }

  lemma MemberParts(src: string, pos: nat, m: Members)
    requires m.Member? && LegalMembers(m) && SpellsMembers(src, pos, m) && At(src, pos + MembersWidth(m)) == '}'
    ensures var p := pos + KeyWidth(m);
      var q := p + Width(m.value);
      && SpellsKey(src, pos, m) && !IsWs(At(src, p)) && SkipWs(src, q) == q + |m.after|
      && Spells(src, p, m.value) && Legal(m.value) && Follows(At(src, q)) && Starts(src, q, m.after)
      && At(src, q + |m.after|) == (if m.rest.Member? then ',' else '}')
      && (m.rest.Member? ==>
            && LegalMembers(m.rest) && SpellsMembers(src, q + |m.after| + 1, m.rest)
            && At(src, q + |m.after| + 1 + MembersWidth(m.rest)) == '}')
  {
    hide Spells, Legal, Starts, AllWs, Width, SkipWs, SpellsKey, ParseValue, KindOf;
    var p := pos + KeyWidth(m);
    SpelledIsNotWs(src, p, m.value);
    AfterValue(src, p + Width(m.value), m.after);
  }

  lemma KeyParts(src: string, pos: nat, m: Members)
    requires m.Member? && LegalMembers(m) && SpellsKey(src, pos, m) && !IsWs(At(src, pos + KeyWidth(m)))
    ensures var p := pos + |m.before|;
      var q := p + |m.key| + 2;
      var r := q + |m.afterKey|;
      && SkipWs(src, pos) == p && ParseString(src, p) == Ok(STRING, p, q)
      && SkipWs(src, q) == r && SkipWs(src, r + 1) == pos + KeyWidth(m)
  {
    hide Spells, Legal, ParseString, IsBody, SkipWs, Starts;
    var p := pos + |m.before|;
    var q := p + |m.key| + 2;
    WsOver(src, pos, m.before);
    QuotedOver(src, p, m.key);
    WsOver(src, q, m.afterKey);
    WsOver(src, q + |m.afterKey| + 1, m.beforeValue);
  }

  lemma OneKey(src: string, pos: nat, a: Members, b: Members)
    requires a.Member? && LegalMembers(a) && SpellsKey(src, pos, a) && !IsWs(At(src, pos + KeyWidth(a)))
    requires b.Member? && LegalMembers(b) && SpellsKey(src, pos, b) && !IsWs(At(src, pos + KeyWidth(b)))
    ensures a.before == b.before && a.key == b.key && a.afterKey == b.afterKey && a.beforeValue == b.beforeValue
  {
    hide ParseString, IsBody, SkipWs, Starts, AllWs, LegalMembers;
    KeyParts(src, pos, a);
    KeyParts(src, pos, b);
    OneStart(src, pos, a.before, b.before);
    var p := pos + |a.before|;
    OneStart(src, p + 1, a.key, b.key);
    var q := p + |a.key| + 2;
    OneStart(src, q, a.afterKey, b.afterKey);
    OneStart(src, q + |a.afterKey| + 1, a.beforeValue, b.beforeValue);
  }

  /** Two legal trees with the same text are the same tree. */
  lemma OneTree(v: Json, w: Json)
    requires Legal(v) && Legal(w) && Render(v) == Render(w)
    ensures v == w
  {
    hide Render, Legal, Spells;
    var src := Render(v);
    assert Starts(src, 0, Render(v)) && Starts(src, 0, Render(w));
    ValueSpells(src, 0, v);
    ValueSpells(src, 0, w);
    OneValue(src, 0, v, w);
  }
}
