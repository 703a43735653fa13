/** The C client's array of tool calls, compared with the maps that the other two clients keep the calls in. */
module ToolArray {
  import opened ToolReassembly

  // The array is searched for an index and flushed front to back; a flush empties it but
  // resets only the slots it emits, so a later call may find an id or a name in its slot.

  const BLANK := Slot(0, NO_CALL)

  function Find(slots: seq<Slot>, index: Index): (i: nat)
    ensures i <= |slots|
    ensures i < |slots| ==> slots[i].index == index
    ensures forall k :: 0 <= k < i ==> slots[k].index != index
  {
    if slots == [] || slots[0].index == index then 0 else 1 + Find(slots[1..], index)
  }

  /** One delta entered into the array; a new entry takes over the identity left in the slot it gets. */
  function Enter(slots: seq<Slot>, left: Call, d: Delta): seq<Slot> {
    var i := Find(slots, d.index);
    if i < |slots| then slots[i := Slot(d.index, Merge(slots[i].call, d))]
    else slots + [Slot(d.index, Merge(left.(arguments := ""), d))]
  }

  function LeftAt(left: seq<Call>, k: nat): Call {
    if k < |left| then left[k] else NO_CALL
  }

  /** A round of deltas entered into an empty array whose slots still hold these calls. */
  function EnterAll(left: seq<Call>, deltas: seq<Delta>): seq<Slot> {
    if deltas == [] then []
    else
      var before := EnterAll(left, deltas[..|deltas| - 1]);
      Enter(before, LeftAt(left, |before|), deltas[|deltas| - 1])
  }

  function Emitted(slots: seq<Slot>): seq<Slot> {
    if slots == [] then []
    else
      var n := |slots| - 1;
      Emitted(slots[..n]) + if slots[n].call.arguments != "" then [slots[n]] else []
  }

  function Reset(slot: Slot): Slot {
    if slot.call.arguments == "" then slot else BLANK
  }

  /** What the slots hold when a round has been flushed. */
  function LeftOver(left: seq<Call>, slots: seq<Slot>): seq<Call> {
    seq(if |left| < |slots| then |slots| else |left|,
        k requires 0 <= k => if k < |slots| then Reset(slots[k]).call else LeftAt(left, k))
  }

  /** What the slots hold after some rounds, each entered and flushed. */
  function LeftAfter(rounds: seq<seq<Delta>>): seq<Call> {
    if rounds == [] then []
    else
      var left := LeftAfter(rounds[..|rounds| - 1]);
      LeftOver(left, EnterAll(left, rounds[|rounds| - 1]))
  }

  /** The array and its count, grown by doubling; slots at and past `count` keep what the last flush left there. */
  class ToolTable {
    var tools: array<Slot>
    var count: nat

    ghost predicate Valid()
      reads this
    {
      count <= tools.Length
    }

    function Contents(): seq<Slot>
      requires Valid()
      reads this, tools
    {
      tools[..count]
    }

    /** What a slot holds; those past the end of the array are blank when it grows. */
    function Held(k: nat): Call
      reads this, tools
    {
      if k < tools.Length then tools[k].call else NO_CALL
    }

    constructor ()
      ensures Valid() && Contents() == [] && fresh(tools) && forall k :: Held(k) == NO_CALL
    {
      tools := new Slot[0];
      count := 0;
    }

    method Grow()
      requires Valid() && count == tools.Length
      modifies this
      ensures Valid() && fresh(tools) && count == old(count) && count < tools.Length
      ensures Contents() == old(Contents()) && forall k :: Held(k) == old(Held(k))
    {
      var bigger: array<Slot> := new Slot[if tools.Length == 0 then 4 else 2 * tools.Length];
      for i := 0 to bigger.Length
        modifies bigger
        invariant forall k :: 0 <= k < i ==> bigger[k] == if k < tools.Length then tools[k] else BLANK
      {
        bigger[i] := if i < tools.Length then tools[i] else BLANK;
      }
      tools := bigger;
    }

    method Ensure(index: Index) returns (i: nat)
      requires Valid()
      modifies this, tools
      ensures Valid() && (tools == old(tools) || fresh(tools)) && i < count
      ensures i == Find(old(Contents()), index)
      ensures i < |old(Contents())| ==> Contents() == old(Contents())
      ensures i == |old(Contents())| ==>
                Contents() == old(Contents()) + [Slot(index, old(Held(count)).(arguments := ""))]
      ensures forall k :: k >= count ==> Held(k) == old(Held(k))
    {
      i := 0;
      while i < count
        invariant i <= count && Find(Contents(), index) == i + Find(Contents()[i..], index)
      {
        if tools[i].index == index {
          return;
        }
        assert Contents()[i..][1..] == Contents()[i + 1..];
        i := i + 1;
      }
      if count >= tools.Length {
        Grow();
      }
      tools[count] := Slot(index, tools[count].call.(arguments := ""));
      count := count + 1;
    }

    method Push(d: Delta)
      requires Valid()
      modifies this, tools
      ensures Valid() && (tools == old(tools) || fresh(tools))
      ensures Contents() == Enter(old(Contents()), old(Held(count)), d) && count >= old(count)
      ensures forall k :: k >= count ==> Held(k) == old(Held(k))
    {
      var i := Ensure(d.index);
      var call := tools[i].call;
      if d.id != "" {
        call := call.(id := d.id);
      }
      if d.name != "" {
        call := call.(name := d.name);
      }
      call := call.(arguments := call.arguments + d.arguments);
      tools[i] := Slot(tools[i].index, call);
    }

    method EmitToolCalls() returns (slots: seq<Slot>)
      requires Valid()
      modifies this, tools
      ensures Valid() && tools == old(tools) && Contents() == []
      ensures slots == Emitted(old(Contents()))
      ensures forall k: nat :: Held(k) == if k < old(count) then Reset(old(Contents())[k]).call else old(Held(k))
    {
      slots := [];
      for i := 0 to count
        modifies tools
        invariant slots == Emitted(old(Contents())[..i])
        invariant forall k :: 0 <= k < tools.Length ==>
                    tools[k] == if k < i then Reset(old(tools[k])) else old(tools[k])
      {
        ghost var was := old(Contents());
        assert was[..i + 1][..i] == was[..i];
        if tools[i].call.arguments != "" {
          slots := slots + [tools[i]];
          tools[i] := BLANK;
        }
      }
      assert old(Contents())[..count] == old(Contents());
      count := 0;
    }
  }

  // ---------------------------------------------------------------- the array as a map

  predicate IsTable(slots: seq<Slot>, order: seq<Index>, pending: Pending) {
    && |slots| == |order|
    && forall i :: 0 <= i < |order| ==> order[i] in pending && slots[i] == Slot(order[i], pending[order[i]])
  }

  lemma TableNext(slots: seq<Slot>, order: seq<Index>, pending: Pending, left: Call, d: Delta)
    requires IsTable(slots, order, pending) && Distinct(order)
    requires d.index !in order ==> Known(pending, d.index) == left.(arguments := "")
    ensures IsTable(Enter(slots, left, d), if d.index in order then order else order + [d.index], Add(pending, d))
  {
    var i := Find(slots, d.index);
    if i < |slots| {
      assert order[i] == d.index;
    } else {
      forall k | 0 <= k < |order|
        ensures order[k] != d.index
      {
        assert slots[k].index == order[k];
      }
    }
  }

  /** The slots' calls as the starting point of the indexes that will take them, in order. */
  function Given(left: seq<Call>, order: seq<Index>): Pending {
    if order == [] then map[]
    else
      var n := |order| - 1;
      Given(left, order[..n])[order[n] := LeftAt(left, n).(arguments := "")]
  }

  lemma {:induction false} GivenAt(left: seq<Call>, order: seq<Index>)
    requires Distinct(order)
    ensures forall x :: x in Given(left, order) <==> x in order
    ensures forall k :: 0 <= k < |order| ==> Known(Given(left, order), order[k]) == LeftAt(left, k).(arguments := "")
  {
    if order != [] {
      var n := |order| - 1;
      GivenAt(left, order[..n]);
      assert order == order[..n] + [order[n]];
    }
  }

  ghost predicate Gives(given: Pending, left: seq<Call>, order: seq<Index>) {
    forall k :: 0 <= k < |order| ==> Known(given, order[k]) == LeftAt(left, k).(arguments := "")
  }

  /** The searched array holds what a map would that started from the slots' calls, in the order of first mention. */
  lemma {:induction false} TableHoldsMap(given: Pending, left: seq<Call>, deltas: seq<Delta>)
    requires Gives(given, left, FirstMentions(deltas))
    ensures IsTable(EnterAll(left, deltas), FirstMentions(deltas), AddAll(given, deltas))
  {
    if deltas != [] {
      var before, d := deltas[..|deltas| - 1], deltas[|deltas| - 1];
      var seen, order := FirstMentions(before), FirstMentions(deltas);
      forall k | 0 <= k < |seen|
        ensures Known(given, seen[k]) == LeftAt(left, k).(arguments := "")
      {
        assert seen[k] == order[k];
      }
      TableHoldsMap(given, left, before);
      FirstMentionsListIndexes(before);
      if d.index !in seen {
        assert order[|seen|] == d.index;
        StillGiven(given, before, d.index);
      }
      TableNext(EnterAll(left, before), seen, AddAll(given, before), LeftAt(left, |seen|), d);
    }
  }

  lemma StillGiven(given: Pending, deltas: seq<Delta>, x: Index)
    requires x !in Indexes(deltas)
    ensures Known(AddAll(given, deltas), x) == Known(given, x)
  {
    AddAllContinues(given, deltas);
    AssembledOfNone(deltas, x);
    assert Known(given, x).arguments + "" == Known(given, x).arguments;
  }

  lemma {:induction false} EmittedIsAlong(slots: seq<Slot>, order: seq<Index>, pending: Pending)
    requires IsTable(slots, order, pending)
    ensures forall x :: x in order ==> x in pending
    ensures Emitted(slots) == Along(order, pending)
  {
    if order != [] {
      var n := |order| - 1;
      EmittedIsAlong(slots[..n], order[..n], pending);
      assert forall x :: x in order ==> x in order[..n] || x == order[n];
      assert order[..n + 1] == order;
      AlongNext(order, n, pending);
    }
  }

  // ---------------------------------------------------------------- the array against the maps

  /** Both maps hold the same call wherever there is something to emit. */
  ghost predicate SpeakAlike(a: Pending, b: Pending, deltas: seq<Delta>)
    requires forall x :: x in Indexes(deltas) ==> x in a && x in b
  {
    forall x :: x in Indexes(deltas) && a[x].arguments != "" ==> a[x] == b[x]
  }

  /** Two maps that were given the same deltas, and nothing to emit before: neither emits anything else. */
  lemma SameArguments(start: Pending, deltas: seq<Delta>)
    requires forall x :: x in start ==> start[x].arguments == ""
    ensures var pending := AddAll(start, deltas);
      && pending.Keys == start.Keys + Indexes(deltas)
      && forall x :: x in pending ==>
           && pending[x] == Continued(Known(start, x), deltas, x)
           && pending[x].arguments == Assembled(deltas, x).arguments
           && (x !in Indexes(deltas) ==> pending[x].arguments == "")
  {
    hide Assembled, AddAll, Indexes;
    AddAllContinues(start, deltas);
    forall x | x !in Indexes(deltas)
      ensures Assembled(deltas, x) == NO_CALL
    {
      AssembledOfNone(deltas, x);
    }
  }

  lemma SameCalls(order: seq<Index>, a: Pending, b: Pending, deltas: seq<Delta>)
    requires Lists(order, a.Keys) && a.Keys == Indexes(deltas) && Indexes(deltas) <= b.Keys
    requires forall x :: x in a ==> a[x].arguments == b[x].arguments
    requires forall x :: x in b && x !in a ==> b[x].arguments == ""
    ensures multiset(Along(order, a)) == multiset(Flush(b)) <==> SpeakAlike(a, b, deltas)
  {
    hide Along, Indexes;
    var sorted := Sorted(b.Keys);
    AlongHolds(order, a);
    AlongHolds(sorted, b);
    if SpeakAlike(a, b, deltas) {
      SameMultiset(Along(order, a), Along(sorted, b));
    }
    if multiset(Along(order, a)) == multiset(Flush(b)) {
      forall x | x in a && a[x].arguments != ""
        ensures a[x] == b[x]
      {
        assert Slot(x, a[x]) in Along(order, a);
        assert Slot(x, a[x]) in multiset(Flush(b));
      }
    }
  }

  /** The indexes that are emitted, in the order of the first mention: the same whatever was known before. */
  lemma {:induction false} SameIndexes(order: seq<Index>, a: Pending, b: Pending)
    requires forall x :: x in order ==> x in a && x in b && a[x].arguments == b[x].arguments
    ensures WithArguments(order, a) == WithArguments(order, b)
  {
    if order != [] {
      assert order[|order| - 1] in order;
      SameIndexes(order[..|order| - 1], a, b);
    }
  }

  lemma SameOrder(order: seq<Index>, a: Pending, b: Pending)
    requires Lists(order, a.Keys) && a.Keys <= b.Keys
    requires forall x :: x in a ==> a[x].arguments == b[x].arguments
    requires forall x :: x in b && x !in a ==> b[x].arguments == ""
    ensures WithArguments(order, a) == WithArguments(Sorted(b.Keys), b) <==> Ascending(WithArguments(order, a))
  {
    var sorted := Sorted(b.Keys);
    WithArgumentsFilters(order, a);
    WithArgumentsFilters(sorted, b);
    WithArgumentsAscend(sorted, b);
    if Ascending(WithArguments(order, a)) {
      AscendingIsUnique(WithArguments(order, a), WithArguments(sorted, b));
    }
  }

  lemma AlongAt(order: seq<Index>, pending: Pending)
    requires forall x :: x in order ==> x in pending
    ensures |Along(order, pending)| == |WithArguments(order, pending)|
    ensures forall i :: 0 <= i < |WithArguments(order, pending)| ==>
              && WithArguments(order, pending)[i] in pending
              && Along(order, pending)[i] == Slot(WithArguments(order, pending)[i], pending[WithArguments(order, pending)[i]])
  {
    WithArgumentsFilters(order, pending);
    assert forall i :: 0 <= i < |WithArguments(order, pending)| ==>
        WithArguments(order, pending)[i] in WithArguments(order, pending);
  }

  /** Two walks emit the same indexes: then they emit the same calls exactly when they emit the same slots. */
  lemma AlongPoints(a: Pending, b: Pending, p: seq<Index>, q: seq<Index>)
    requires (forall x :: x in p ==> x in a) && (forall x :: x in q ==> x in b)
    ensures Along(p, a) == Along(q, b) ==> WithArguments(p, a) == WithArguments(q, b)
    ensures WithArguments(p, a) == WithArguments(q, b) ==>
              (Along(p, a) == Along(q, b) <==> Calls(Along(p, a)) == Calls(Along(q, b)))
    ensures WithArguments(p, a) == WithArguments(q, b) ==>
              (Along(p, a) == Along(q, b) <==> forall x :: x in WithArguments(p, a) ==> x in a && x in b && a[x] == b[x])
  {
    AlongAt(p, a);
    AlongAt(q, b);
    hide Along, WithArguments;
    SlotsPoint(Along(p, a), Along(q, b), WithArguments(p, a), WithArguments(q, b), a, b);
  }

  lemma SlotsPoint(s: seq<Slot>, t: seq<Slot>, ks: seq<Index>, kt: seq<Index>, a: Pending, b: Pending)
    requires |s| == |ks| && |t| == |kt|
    requires forall i :: 0 <= i < |ks| ==> ks[i] in a && s[i] == Slot(ks[i], a[ks[i]])
    requires forall i :: 0 <= i < |kt| ==> kt[i] in b && t[i] == Slot(kt[i], b[kt[i]])
    ensures s == t ==> ks == kt
    ensures ks == kt ==> (s == t <==> Calls(s) == Calls(t))
    ensures ks == kt ==> (s == t <==> forall x :: x in ks ==> x in a && x in b && a[x] == b[x])
  {
    if s == t {
      assert forall i :: 0 <= i < |ks| ==> s[i] == t[i];
    }
    if ks == kt && Calls(s) == Calls(t) {
      forall i | 0 <= i < |ks|
        ensures s[i] == t[i]
      {
        assert Calls(s)[i] == Calls(t)[i] && s[i].index == t[i].index;
      }
    }
  }

  /** The deltas of a call give it an identity of its own, or the same was known on both sides. */
  predicate Settled(now: Call, a: Call, b: Call) {
    now.arguments != "" ==> (now.id != "" || a.id == b.id) && (now.name != "" || a.name == b.name)
  }

  /** Of every index of the round: it is settled between the slot it takes and what the map knows of it. */
  ghost predicate IdentitiesAgree(left: seq<Call>, start: Pending, deltas: seq<Delta>) {
    var order := FirstMentions(deltas);
    forall k :: 0 <= k < |order| ==> Settled(Assembled(deltas, order[k]), LeftAt(left, k), Known(start, order[k]))
  }

  lemma AgreeMeans(left: seq<Call>, start: Pending, deltas: seq<Delta>)
    requires forall x :: x in start ==> start[x].arguments == ""
    ensures var given := Given(left, FirstMentions(deltas));
      && (forall x :: x in Indexes(deltas) ==> x in AddAll(given, deltas) && x in AddAll(start, deltas))
      && (SpeakAlike(AddAll(given, deltas), AddAll(start, deltas), deltas) <==> IdentitiesAgree(left, start, deltas))
  {
    hide Assembled, FirstMentions, Given, AddAll, Indexes;
    var order := FirstMentions(deltas);
    var given := Given(left, order);
    FirstMentionsListIndexes(deltas);
    GivenAt(left, order);
    GivenIsQuiet(left, order);
    SameArguments(given, deltas);
    SameArguments(start, deltas);
    var a, b := AddAll(given, deltas), AddAll(start, deltas);
    forall k | 0 <= k < |order|
      ensures Settled(Assembled(deltas, order[k]), LeftAt(left, k), Known(start, order[k])) <==>
              (a[order[k]].arguments != "" ==> a[order[k]] == b[order[k]])
    {
      assert order[k] in order;
    }
    if IdentitiesAgree(left, start, deltas) {
      forall x | x in Indexes(deltas) && a[x].arguments != ""
        ensures a[x] == b[x]
      {
        var k :| 0 <= k < |order| && order[k] == x;
      }
    }
    if SpeakAlike(a, b, deltas) {
      forall k | 0 <= k < |order|
        ensures Settled(Assembled(deltas, order[k]), LeftAt(left, k), Known(start, order[k]))
      {
        assert order[k] in order;
      }
    }
  }

  lemma {:induction false} GivenIsQuiet(left: seq<Call>, order: seq<Index>)
    ensures forall x :: x in Given(left, order) ==> Given(left, order)[x].arguments == ""
    ensures forall x :: x in Given(left, order) ==> x in order
  {
    if order != [] { GivenIsQuiet(left, order[..|order| - 1]); }
  }

  /**
   One round through the C client's array, whatever earlier rounds left in its slots, against
   a map that starts from what it knows: nothing in Go, the identities so far in Rust.
   The same calls are emitted exactly when each call with arguments gets its id and its name
   from its own deltas, or finds the same in its slot as the map knows. They come in the same
   order, besides, exactly when they are first mentioned in ascending order of their indexes.
   */
  lemma TableAgainstMap(left: seq<Call>, start: Pending, deltas: seq<Delta>)
    requires forall x :: x in start ==> start[x].arguments == ""
    ensures var fromArray, fromMap := Emitted(EnterAll(left, deltas)), Flush(AddAll(start, deltas));
      && (multiset(fromArray) == multiset(fromMap) <==> IdentitiesAgree(left, start, deltas))
      && (fromArray == fromMap <==> IdentitiesAgree(left, start, deltas) && Ascending(Spoken(deltas)))
      && (Ascending(Spoken(deltas)) ==> (Calls(fromArray) == Calls(fromMap) <==> IdentitiesAgree(left, start, deltas)))
  {
    hide Assembled, FirstMentions, Given, AddAll, Indexes, Emitted, EnterAll, Along, Calls, WithArguments, Flush, IdentitiesAgree, SpeakAlike, Spoken;
    var order := FirstMentions(deltas);
    var given := Given(left, order);
    FirstMentionsListIndexes(deltas);
    GivenAt(left, order);
    GivenIsQuiet(left, order);
    TableHoldsMap(given, left, deltas);
    var a, b := AddAll(given, deltas), AddAll(start, deltas);
    EmittedIsAlong(EnterAll(left, deltas), order, a);
    SameArguments(given, deltas);
    SameArguments(start, deltas);
    assert a.Keys == Indexes(deltas);
    AgreeMeans(left, start, deltas);
    SameCalls(order, a, b, deltas);
    SpokenIs(given, deltas);
    SameSequence(order, a, b, deltas);
  }

  lemma SameSequence(order: seq<Index>, a: Pending, b: Pending, deltas: seq<Delta>)
    requires Lists(order, a.Keys) && a.Keys == Indexes(deltas) && Indexes(deltas) <= b.Keys
    requires forall x :: x in a ==> a[x].arguments == b[x].arguments
    requires forall x :: x in b && x !in a ==> b[x].arguments == ""
    ensures Along(order, a) == Flush(b) <==> SpeakAlike(a, b, deltas) && Ascending(WithArguments(order, a))
    ensures Ascending(WithArguments(order, a)) ==>
              (Calls(Along(order, a)) == Calls(Flush(b)) <==> SpeakAlike(a, b, deltas))
  {
    hide Along, Calls, WithArguments, Indexes;
    SameOrder(order, a, b);
    AlongPoints(a, b, order, Sorted(b.Keys));
    WithArgumentsFilters(order, a);
  }

  /** The indexes with arguments, as they are first mentioned. */
  function Spoken(deltas: seq<Delta>): seq<Index> {
    FirstMentionsListIndexes(deltas);
    MapAssembles(deltas);
    WithArguments(FirstMentions(deltas), AddAll(map[], deltas))
  }

  lemma SpokenIs(given: Pending, deltas: seq<Delta>)
    requires forall x :: x in given ==> given[x].arguments == ""
    ensures forall x :: x in FirstMentions(deltas) ==> x in AddAll(given, deltas)
    ensures WithArguments(FirstMentions(deltas), AddAll(given, deltas)) == Spoken(deltas)
  {
    hide Assembled, FirstMentions, AddAll;
    FirstMentionsListIndexes(deltas);
    MapAssembles(deltas);
    SameArguments(given, deltas);
    SameIndexes(FirstMentions(deltas), AddAll(given, deltas), AddAll(map[], deltas));
  }

  /** On a first round nothing is left and nothing is known: the calls are always those of the maps. */
  lemma FirstRoundAgrees(deltas: seq<Delta>)
    ensures multiset(Emitted(EnterAll([], deltas))) == multiset(Flush(AddAll(map[], deltas)))
    ensures Emitted(EnterAll([], deltas)) == Flush(AddAll(map[], deltas)) <==> Ascending(Spoken(deltas))
  {
    hide Assembled, FirstMentions, AddAll, Emitted, EnterAll, Flush, Spoken;
    TableAgainstMap([], map[], deltas);
  }

  /**
   How later rounds go wrong: a call that was dropped for want of arguments leaves its id and
   name in the slot, and the next call takes over what it does not state itself.
   */
  lemma DroppedCallIsTakenOver(d: Delta, e: Delta)
    requires d.arguments == "" && e.arguments != ""
    ensures LeftAfter([[d]]) == [Call(d.id, d.name, "")]
    ensures multiset(Emitted(EnterAll(LeftAfter([[d]]), [e]))) == multiset(Flush(AddAll(map[], [e]))) <==>
            (e.id != "" || d.id == "") && (e.name != "" || d.name == "")
  {
    hide Assembled, AddAll, Emitted, Flush, Spoken;
    OneRound(d);
    TableAgainstMap([Call(d.id, d.name, "")], map[], [e]);
    OneMention(e);
  }

  lemma OneRound(d: Delta)
    requires d.arguments == ""
    ensures LeftAfter([[d]]) == [Call(d.id, d.name, "")]
  {
    assert [d][..0] == [] && [[d]][..0] == [];
    assert EnterAll([], [d]) == [Slot(d.index, Merge(NO_CALL, d))];
  }

  lemma OneMention(e: Delta)
    ensures FirstMentions([e]) == [e.index]
    ensures Assembled([e], e.index) == Call(e.id, e.name, e.arguments)
  {
    hide Assembled;
    assert FirstMentions([e]) == [e.index] by {
      assert [e][..0] == [] && FirstMentions([]) == [];
    }
    assert Merge(NO_CALL, e) == Call(e.id, e.name, e.arguments);
    assert Assembled([e], e.index) == Merge(NO_CALL, e) by {
      hide Merge, FirstMentions;
      AssembledOfNone([], e.index);
      AssembledNext([], e, e.index);
      assert [] + [e] == [e];
    }
  }

  // ---------------------------------------------------------------- the array as it runs

  /** Any number of rounds through one array, each flushed at its end. */
  method Reassemble(rounds: seq<seq<Delta>>) returns (out: seq<seq<Slot>>)
    ensures |out| == |rounds|
    ensures forall r :: 0 <= r < |rounds| ==> out[r] == Emitted(EnterAll(LeftAfter(rounds[..r]), rounds[r]))
  {
    hide Emitted, EnterAll, LeftAfter;
    var table := new ToolTable();
    out := [];
    EmptyLeft();
    for r := 0 to |rounds|
      invariant fresh(table) && table.Valid() && fresh(table.tools) && table.Contents() == []
      invariant |out| == r
      invariant forall q :: 0 <= q < r ==> out[q] == Emitted(EnterAll(LeftAfter(rounds[..q]), rounds[q]))
      invariant forall k :: table.Held(k) == LeftAt(LeftAfter(rounds[..r]), k)
    {
      ghost var left := LeftAfter(rounds[..r]);
      var slots := Round(table, rounds[r], left);
      out := out + [slots];
      assert rounds[..r + 1][..r] == rounds[..r];
      LeftAfterNext(rounds, r);
    }
  }

  lemma EmptyLeft()
    ensures LeftAfter([]) == []
  {
  }

  lemma LeftAfterNext(rounds: seq<seq<Delta>>, r: nat)
    requires r < |rounds|
    ensures var left := LeftAfter(rounds[..r]);
      LeftAfter(rounds[..r + 1]) == LeftOver(left, EnterAll(left, rounds[r]))
  {
    assert rounds[..r + 1][..r] == rounds[..r];
  }

  method Round(table: ToolTable, deltas: seq<Delta>, ghost left: seq<Call>) returns (slots: seq<Slot>)
    requires table.Valid() && table.Contents() == []
    requires forall k :: table.Held(k) == LeftAt(left, k)
    modifies table, table.tools
    ensures table.Valid() && table.Contents() == [] && (table.tools == old(table.tools) || fresh(table.tools))
    ensures slots == Emitted(EnterAll(left, deltas))
    ensures forall k :: table.Held(k) == LeftAt(LeftOver(left, EnterAll(left, deltas)), k)
  {
    hide Emitted, Enter;
    for i := 0 to |deltas|
      invariant table.Valid() && (table.tools == old(table.tools) || fresh(table.tools))
      invariant table.Contents() == EnterAll(left, deltas[..i])
      invariant forall k :: k >= table.count ==> table.Held(k) == LeftAt(left, k)
    {
      assert deltas[..i + 1][..i] == deltas[..i];
      table.Push(deltas[i]);
    }
    assert deltas[..|deltas|] == deltas;
    slots := table.EmitToolCalls();
  }
}
