/** Tool calls from streamed pieces, put together in a map by index, as the Go and Rust clients do. */
module ToolReassembly {

  // A delta names an index and may carry an id, a name and a piece of the arguments; deltas of
  // different calls come interleaved. The Go and Rust clients keep the calls in a map that is
  // flushed in index order; ToolArray compares the C client's array with these maps.

  /** The index of a call: a 64-bit integer of the stream. */
  type Index = i: int | -0x8000_0000_0000_0000 <= i < 0x8000_0000_0000_0000

  datatype Delta = Delta(index: Index, id: string, name: string, arguments: string)

  datatype Call = Call(id: string, name: string, arguments: string)

  /** A call together with the index its deltas carried. */
  datatype Slot = Slot(index: Index, call: Call)

  const NO_CALL := Call("", "", "")

  // ---------------------------------------------------------------- what a stream of deltas says

  /** The deltas of one call, in order. */
  function Own(deltas: seq<Delta>, index: Index): seq<Delta> {
    if deltas == [] then []
    else
      var last := deltas[|deltas| - 1];
      Own(deltas[..|deltas| - 1], index) + if last.index == index then [last] else []
  }

  function LastId(deltas: seq<Delta>): string {
    if deltas == [] then ""
    else if deltas[|deltas| - 1].id != "" then deltas[|deltas| - 1].id
    else LastId(deltas[..|deltas| - 1])
  }

  function LastName(deltas: seq<Delta>): string {
    if deltas == [] then ""
    else if deltas[|deltas| - 1].name != "" then deltas[|deltas| - 1].name
    else LastName(deltas[..|deltas| - 1])
  }

  function Joined(deltas: seq<Delta>): string {
    if deltas == [] then "" else Joined(deltas[..|deltas| - 1]) + deltas[|deltas| - 1].arguments
  }

  /** The call an index stands for: last non-empty id and name, all pieces of arguments in order. */
  function Assembled(deltas: seq<Delta>, index: Index): Call {
    var own := Own(deltas, index);
    Call(LastId(own), LastName(own), Joined(own))
  }

  function Indexes(deltas: seq<Delta>): set<Index> {
    set d | d in deltas :: d.index
  }

  // ---------------------------------------------------------------- orders of indexes

  predicate Distinct<T(==)>(order: seq<T>) {
    forall i, j :: 0 <= i < j < |order| ==> order[i] != order[j]
  }

  predicate Ascending(order: seq<Index>) {
    forall i, j :: 0 <= i < j < |order| ==> order[i] < order[j]
  }

  ghost predicate Lists(order: seq<Index>, s: set<Index>) {
    && Distinct(order)
    && (forall x :: x in order <==> x in s)
  }

  /** The indexes in the order in which the stream first mentions them. */
  function FirstMentions(deltas: seq<Delta>): (order: seq<Index>) {
    if deltas == [] then []
    else
      var before := FirstMentions(deltas[..|deltas| - 1]);
      var x := deltas[|deltas| - 1].index;
      if x in before then before else before + [x]
  }

  lemma {:induction false} FirstMentionsListIndexes(deltas: seq<Delta>)
    ensures Lists(FirstMentions(deltas), Indexes(deltas))
  {
    if deltas != [] {
      var n := |deltas| - 1;
      FirstMentionsListIndexes(deltas[..n]);
      assert deltas == deltas[..n] + [deltas[n]];
      assert Indexes(deltas) == Indexes(deltas[..n]) + {deltas[n].index};
    }
  }

  /** Two ascending lists of the same indexes are the same list. */
  lemma {:induction false} AscendingIsUnique(a: seq<Index>, b: seq<Index>)
    requires Ascending(a) && Ascending(b)
    requires forall x :: x in a <==> x in b
    ensures a == b
  {
    if |a| > 0 {
      assert a[0] in a;
    }
    if |b| > 0 {
      assert b[0] in b;
    }
    if a != [] && b != [] {
      assert a[0] in b && b[0] in a;
      assert a[0] == b[0];
      forall x
        ensures x in a[1..] <==> x in b[1..]
      {
        assert x in a[1..] <==> x in a && x != a[0];
        assert x in b[1..] <==> x in b && x != b[0];
      }
      AscendingIsUnique(a[1..], b[1..]);
    }
  }

  lemma {:induction false} Maximum(s: set<Index>) returns (m: Index)
    requires s != {}
    ensures m in s && forall x :: x in s ==> x <= m
  {
    var first: Index :| first in s;
    var rest := s - {first};
    m := first;
    if rest != {} {
      var r := Maximum(rest);
      m := if first > r then first else r;
    }
    forall x | x in s
      ensures x <= m
    {
      assert x == first || x in rest;
    }
  }

  lemma MaximumExists(s: set<Index>)
    requires s != {}
    ensures exists m :: m in s && forall x :: x in s ==> x <= m
  {
    var m := Maximum(s);
  }

  /** The members of a finite set of indexes in ascending order: what sorting its keys gives. */
  ghost function Sorted(s: set<Index>): (order: seq<Index>)
    ensures Ascending(order) && Lists(order, s)
  {
    if s == {} then []
    else
      MaximumExists(s);
      var m :| m in s && forall x :: x in s ==> x <= m;
      Sorted(s - {m}) + [m]
  }

  // ---------------------------------------------------------------- the ordered map

  type Pending = map<Index, Call>

  function Merge(call: Call, d: Delta): Call {
    Call(if d.id != "" then d.id else call.id, if d.name != "" then d.name else call.name, call.arguments + d.arguments)
  }

  function Add(pending: Pending, d: Delta): Pending {
    pending[d.index := Merge(if d.index in pending then pending[d.index] else NO_CALL, d)]
  }

  function AddAll(pending: Pending, deltas: seq<Delta>): Pending {
    if deltas == [] then pending else Add(AddAll(pending, deltas[..|deltas| - 1]), deltas[|deltas| - 1])
  }

  lemma {:induction false} AddAllSplit(pending: Pending, a: seq<Delta>, b: seq<Delta>)
    ensures AddAll(pending, a + b) == AddAll(AddAll(pending, a), b)
  {
    if b == [] {
      assert a + b == a;
    } else {
      assert (a + b)[..|a + b| - 1] == a + b[..|b| - 1];
      AddAllSplit(pending, a, b[..|b| - 1]);
    }
  }

  function Known(pending: Pending, x: Index): Call {
    if x in pending then pending[x] else NO_CALL
  }

  /** A call after its own deltas, from what was known of it before them. */
  function Continued(call: Call, deltas: seq<Delta>, x: Index): Call {
    var now := Assembled(deltas, x);
    Call(if now.id != "" then now.id else call.id, if now.name != "" then now.name else call.name,
         call.arguments + now.arguments)
  }

  lemma AssembledNext(deltas: seq<Delta>, d: Delta, x: Index)
    ensures Assembled(deltas + [d], x) == if x == d.index then Merge(Assembled(deltas, x), d) else Assembled(deltas, x)
  {
    var all := deltas + [d];
    assert all[..|all| - 1] == deltas;
    var own := Own(all, x);
    if x == d.index {
      assert own == Own(deltas, x) + [d];
      assert own[..|own| - 1] == Own(deltas, x);
    } else {
      assert own == Own(deltas, x);
    }
  }

  lemma ContinuedNext(call: Call, deltas: seq<Delta>, d: Delta, x: Index)
    ensures Continued(call, deltas + [d], x) ==
            if x == d.index then Merge(Continued(call, deltas, x), d) else Continued(call, deltas, x)
  {
    hide Assembled;
    AssembledNext(deltas, d, x);
    var before := Assembled(deltas, x).arguments;
    assert call.arguments + (before + d.arguments) == call.arguments + before + d.arguments;
  }

  lemma AssembledOfNone(deltas: seq<Delta>, x: Index)
    requires x !in Indexes(deltas)
    ensures Assembled(deltas, x) == NO_CALL
  {
    OwnIsEmptyIff(deltas, x);
  }

  lemma IndexesNext(deltas: seq<Delta>, d: Delta)
    ensures Indexes(deltas + [d]) == Indexes(deltas) + {d.index}
  {
    assert (deltas + [d])[|deltas|] == d;
    assert forall e :: e in deltas ==> e in deltas + [d];
  }

  /** The map holds the calls known before, each continued by its own deltas. */
  ghost predicate Continues(start: Pending, deltas: seq<Delta>, pending: Pending) {
    && pending.Keys == start.Keys + Indexes(deltas)
    && forall x :: x in pending ==> pending[x] == Continued(Known(start, x), deltas, x)
  }

  lemma ContinuesNext(start: Pending, before: seq<Delta>, d: Delta, pending: Pending)
    requires Continues(start, before, pending)
    ensures Continues(start, before + [d], Add(pending, d))
  {
    hide Assembled, Indexes;
    IndexesNext(before, d);
    if d.index !in Indexes(before) {
      AssembledOfNone(before, d.index);
    }
    var after := Add(pending, d);
    forall x | x in after
      ensures after[x] == Continued(Known(start, x), before + [d], x)
    {
      ContinuedNext(Known(start, x), before, d, x);
    }
  }

  lemma ContinuesNone(start: Pending)
    ensures Continues(start, [], start)
  {
    hide Assembled;
    forall x ensures Assembled([], x) == NO_CALL { AssembledOfNone([], x); }
  }

  /** Adding deltas to a map continues the calls it knew and begins the others, whatever the interleaving. */
  lemma {:induction false} AddAllContinues(start: Pending, deltas: seq<Delta>)
    ensures Continues(start, deltas, AddAll(start, deltas))
  {
    hide Continues, Add;
    if deltas == [] {
      ContinuesNone(start);
    } else {
      var before, d := deltas[..|deltas| - 1], deltas[|deltas| - 1];
      AddAllContinues(start, before);
      ContinuesNext(start, before, d, AddAll(start, before));
      assert deltas == before + [d];
    }
  }

  /** From an empty map: exactly the calls that the deltas describe. */
  lemma MapAssembles(deltas: seq<Delta>)
    ensures AddAll(map[], deltas).Keys == Indexes(deltas)
    ensures forall x :: x in AddAll(map[], deltas) ==> AddAll(map[], deltas)[x] == Assembled(deltas, x)
  {
    hide Assembled, AddAll;
    var none: Pending := map[];
    AddAllContinues(none, deltas);
    assert none.Keys == {};
  }

  lemma {:induction false} OwnIsEmptyIff(deltas: seq<Delta>, x: Index)
    ensures Own(deltas, x) == [] <==> x !in Indexes(deltas)
  {
    if deltas != [] {
      var n := |deltas| - 1;
      OwnIsEmptyIff(deltas[..n], x);
      assert deltas == deltas[..n] + [deltas[n]];
      assert Indexes(deltas) == Indexes(deltas[..n]) + {deltas[n].index};
    }
  }

  // ---------------------------------------------------------------- flushing

  /** The indexes of an order whose call has arguments; the others are dropped. */
  function WithArguments(order: seq<Index>, pending: Pending): seq<Index>
    requires forall x :: x in order ==> x in pending
  {
    if order == [] then []
    else
      var n := |order| - 1;
      assert order[n] in order;
      WithArguments(order[..n], pending) + if pending[order[n]].arguments != "" then [order[n]] else []
  }

  lemma {:induction false} WithArgumentsFilters(order: seq<Index>, pending: Pending)
    requires forall x :: x in order ==> x in pending
    ensures forall x :: x in WithArguments(order, pending) <==> x in order && pending[x].arguments != ""
    ensures Distinct(order) ==> Distinct(WithArguments(order, pending))
  {
    if order != [] {
      var n := |order| - 1;
      assert forall x :: x in order <==> x in order[..n] || x == order[n];
      WithArgumentsFilters(order[..n], pending);
    }
  }

  lemma {:induction false} WithArgumentsAscend(order: seq<Index>, pending: Pending)
    requires forall x :: x in order ==> x in pending
    requires Ascending(order)
    ensures Ascending(WithArguments(order, pending))
  {
    if order != [] {
      var n := |order| - 1;
      var front := WithArguments(order[..n], pending);
      WithArgumentsAscend(order[..n], pending);
      WithArgumentsFilters(order[..n], pending);
      forall i | 0 <= i < |front|
        ensures front[i] < order[n]
      {
        assert front[i] in front;
        var k :| 0 <= k < n && order[k] == front[i];
      }
    }
  }

  /** The calls a flush emits when it walks the indexes in this order. */
  function Along(order: seq<Index>, pending: Pending): (slots: seq<Slot>)
    requires forall x :: x in order ==> x in pending
  {
    WithArgumentsFilters(order, pending);
    var kept := WithArguments(order, pending);
    assert forall i :: 0 <= i < |kept| ==> kept[i] in kept;
    assert forall i :: 0 <= i < |kept| ==> kept[i] in pending;
    seq(|kept|, i requires 0 <= i < |kept| => Slot(kept[i], pending[kept[i]]))
  }

  function Calls(slots: seq<Slot>): (calls: seq<Call>)
    ensures |calls| == |slots|
  {
    seq(|slots|, i requires 0 <= i < |slots| => slots[i].call)
  }

  /** The flush of the ordered map. */
  ghost function Flush(pending: Pending): seq<Slot> {
    Along(Sorted(pending.Keys), pending)
  }

  /** What a flush emits: the calls with arguments, once each. */
  lemma AlongHolds(order: seq<Index>, pending: Pending)
    requires Lists(order, pending.Keys)
    ensures Distinct(Along(order, pending))
    ensures forall s :: s in Along(order, pending) <==>
              s.index in pending && s.call == pending[s.index] && s.call.arguments != ""
  {
    WithArgumentsFilters(order, pending);
    var kept, slots := WithArguments(order, pending), Along(order, pending);
    forall s: Slot
      ensures s in slots <==> s.index in pending && s.call == pending[s.index] && s.call.arguments != ""
    {
      if s.index in pending && s.call == pending[s.index] && s.call.arguments != "" {
        assert s.index in kept;
        var i :| 0 <= i < |kept| && kept[i] == s.index;
        assert slots[i] == s;
      }
      if s in slots {
        var i :| 0 <= i < |slots| && slots[i] == s;
        assert kept[i] in kept;
      }
    }
    forall i, j | 0 <= i < j < |slots|
      ensures slots[i] != slots[j]
    {
      assert slots[i].index == kept[i] && slots[j].index == kept[j];
    }
  }

  /** Two lists without repetition that hold the same elements are permutations of each other. */
  lemma {:induction false} SameMultiset<T>(a: seq<T>, b: seq<T>)
    requires Distinct(a) && Distinct(b) && forall x :: x in a <==> x in b
    ensures multiset(a) == multiset(b)
  {
    if |b| > 0 {
      assert b[0] in b;
    }
    if a != [] {
      assert a[0] in a && a[0] in b;
      var k :| 0 <= k < |b| && b[k] == a[0];
      var rest := b[..k] + b[k + 1..];
      DropOne(b, k);
      DropOne(a, 0);
      var tail := a[..0] + a[1..];
      forall x
        ensures x in tail <==> x in rest
      {
        assert x in tail <==> x in a && x != a[0];
        assert x in rest <==> x in b && x != b[k];
      }
      SameMultiset(tail, rest);
    }
  }

  lemma DropOne<T>(s: seq<T>, k: nat)
    requires Distinct(s) && k < |s|
    ensures Distinct(s[..k] + s[k + 1..])
    ensures forall x :: x in s[..k] + s[k + 1..] <==> x in s && x != s[k]
    ensures multiset(s) == multiset(s[..k] + s[k + 1..]) + multiset{s[k]}
  {
    assert s == s[..k] + [s[k]] + s[k + 1..];
    var rest := s[..k] + s[k + 1..];
    forall i | 0 <= i < |rest|
      ensures rest[i] == s[if i < k then i else i + 1]
    {
    }
    forall x | x in s && x != s[k]
      ensures x in rest
    {
      var i :| 0 <= i < |s| && s[i] == x;
      assert rest[if i < k then i else i - 1] == x;
    }
  }

  /** What a flush emits depends only on each call's own deltas, not on how the calls were interleaved. */
  lemma InterleavingDoesNotMatter(a: seq<Delta>, b: seq<Delta>)
    requires forall x :: Own(a, x) == Own(b, x)
    ensures Flush(AddAll(map[], a)) == Flush(AddAll(map[], b))
  {
    MapAssembles(a);
    MapAssembles(b);
    forall x
      ensures x in Indexes(a) <==> x in Indexes(b)
    {
      OwnIsEmptyIff(a, x);
      OwnIsEmptyIff(b, x);
    }
    var pa, pb := AddAll(map[], a), AddAll(map[], b);
    assert pa.Keys == pb.Keys;
    forall x | x in pa
      ensures pa[x] == pb[x]
    {
      assert Assembled(a, x) == Assembled(b, x);
    }
    assert pa == pb;
  }

  /** Each call with arguments is emitted once, complete, in index order, and nothing else is. */
  lemma FlushIsComplete(deltas: seq<Delta>)
    ensures var slots := Flush(AddAll(map[], deltas));
      && (forall s :: s in slots <==>
            s.index in Indexes(deltas) && s.call == Assembled(deltas, s.index) && s.call.arguments != "")
      && (forall i, j :: 0 <= i < j < |slots| ==> slots[i].index < slots[j].index)
  {
    var pending := AddAll(map[], deltas);
    MapAssembles(deltas);
    AlongHolds(Sorted(pending.Keys), pending);
    WithArgumentsAscend(Sorted(pending.Keys), pending);
  }

  // ---------------------------------------------------------------- walking a map in index order

  function Insert(keys: seq<Index>, x: Index): (r: seq<Index>)
    requires Ascending(keys) && x !in keys
    ensures Ascending(r)
    ensures forall y :: y in r <==> y in keys || y == x
  {
    if keys == [] || x < keys[0] then [x] + keys
    else
      var rest := Insert(keys[1..], x);
      assert x != keys[0] && forall y :: y in rest ==> keys[0] < y;
      assert forall i :: 0 <= i < |rest| ==> rest[i] in rest;
      [keys[0]] + rest
  }

  method SortedKeys(pending: Pending) returns (keys: seq<Index>)
    ensures keys == Sorted(pending.Keys)
  {
    keys := [];
    var rest := pending.Keys;
    while rest != {}
      invariant rest <= pending.Keys && Ascending(keys)
      invariant forall x :: x in keys <==> x in pending.Keys - rest
      decreases |rest|
    {
      var x :| x in rest;
      keys := Insert(keys, x);
      rest := rest - {x};
    }
    AscendingIsUnique(keys, Sorted(pending.Keys));
  }

  /** The walk itself: what both map clients emit, before either changes the map. */
  method Walk(pending: Pending) returns (slots: seq<Slot>)
    ensures slots == Flush(pending)
  {
    var keys := SortedKeys(pending);
    slots := [];
    for i := 0 to |keys|
      invariant slots == Along(keys[..i], pending)
    {
      assert keys[i] in keys;
      AlongNext(keys, i, pending);
      if pending[keys[i]].arguments != "" {
        slots := slots + [Slot(keys[i], pending[keys[i]])];
      }
    }
    assert keys[..|keys|] == keys;
  }

  lemma AlongNext(keys: seq<Index>, i: nat, pending: Pending)
    requires i < |keys| && forall x :: x in keys ==> x in pending
    ensures Along(keys[..i + 1], pending) ==
            Along(keys[..i], pending) + if pending[keys[i]].arguments != "" then [Slot(keys[i], pending[keys[i]])] else []
  {
    assert keys[..i + 1][..i] == keys[..i];
  }

  // ---------------------------------------------------------------- the Rust client

  /** The Rust client clears the arguments of the calls it emits and keeps their names. */
  function Cleared(pending: Pending): Pending {
    map x | x in pending :: pending[x].(arguments := "")
  }

  class PendingCalls {
    var calls: Pending

    constructor ()
      ensures calls == map[]
    {
      calls := map[];
    }

    method Push(d: Delta)
      modifies this
      ensures calls == Add(old(calls), d)
    {
      var entry := if d.index in calls then calls[d.index] else NO_CALL;
      if d.id != "" {
        entry := entry.(id := d.id);
      }
      if d.name != "" {
        entry := entry.(name := d.name);
      }
      entry := entry.(arguments := entry.arguments + d.arguments);
      calls := calls[d.index := entry];
    }

    method EmitPending() returns (slots: seq<Slot>)
      modifies this
      ensures slots == Flush(old(calls))
      ensures calls == Cleared(old(calls))
    {
      slots := Walk(calls);
      var keys := SortedKeys(calls);
      ClearArguments(keys);
    }

    method ClearArguments(keys: seq<Index>)
      requires Lists(keys, calls.Keys)
      modifies this
      ensures calls == Cleared(old(calls))
    {
      ghost var was := calls;
      assert forall k :: 0 <= k < |keys| ==> keys[k] in keys;
      for i := 0 to |keys|
        invariant calls.Keys == was.Keys
        invariant forall k :: 0 <= k < i ==> calls[keys[k]] == was[keys[k]].(arguments := "")
        invariant forall k :: i <= k < |keys| ==> calls[keys[k]] == was[keys[k]]
      {
        assert keys[i] in keys;
        calls := calls[keys[i] := calls[keys[i]].(arguments := "")];
      }
      forall x | x in was
        ensures calls[x] == was[x].(arguments := "")
      {
        assert x in keys;
      }
    }
  }

  /** A second flush with no delta in between emits nothing: no call is emitted twice. */
  lemma SecondFlushIsEmpty(pending: Pending)
    ensures Flush(Cleared(pending)) == []
    ensures Flush(map[]) == []
  {
    NothingToFlush(Cleared(pending));
    NothingToFlush(map[]);
  }

  lemma NothingToFlush(pending: Pending)
    requires forall x :: x in pending ==> pending[x].arguments == ""
    ensures Flush(pending) == []
  {
    NoArguments(Sorted(pending.Keys), pending);
  }

  lemma {:induction false} NoArguments(order: seq<Index>, pending: Pending)
    requires forall x :: x in order ==> x in pending && pending[x].arguments == ""
    ensures WithArguments(order, pending) == []
  {
    if order != [] {
      assert order[|order| - 1] in order;
      NoArguments(order[..|order| - 1], pending);
    }
  }

  /** The identity of a call from all deltas, its arguments from those after the flush. */
  function LateCall(first: seq<Delta>, second: seq<Delta>, x: Index): Call {
    Assembled(first + second, x).(arguments := Assembled(second, x).arguments)
  }

  lemma LateNext(first: seq<Delta>, second: seq<Delta>, d: Delta, x: Index)
    ensures LateCall(first, second + [d], x) ==
            if x == d.index then Merge(LateCall(first, second, x), d) else LateCall(first, second, x)
  {
    assert first + (second + [d]) == (first + second) + [d];
    AssembledNext(first + second, d, x);
    AssembledNext(second, d, x);
  }

  lemma LateOfNone(first: seq<Delta>, second: seq<Delta>, x: Index)
    requires x !in Indexes(first + second)
    ensures LateCall(first, second, x) == NO_CALL
  {
    AssembledOfNone(first + second, x);
    assert forall e :: e in second ==> e in first + second;
    AssembledOfNone(second, x);
  }

  /** The Rust client's map after a flush and more deltas. */
  function LateMap(first: seq<Delta>, second: seq<Delta>): Pending {
    map x | x in Indexes(first + second) :: LateCall(first, second, x)
  }

  lemma LateMapNext(first: seq<Delta>, second: seq<Delta>, d: Delta)
    ensures Add(LateMap(first, second), d) == LateMap(first, second + [d])
  {
    hide LateCall, Assembled;
    var late := LateMap(first, second);
    assert first + (second + [d]) == (first + second) + [d];
    IndexesNext(first + second, d);
    if d.index !in late {
      LateOfNone(first, second, d.index);
    }
    forall x | x in Add(late, d)
      ensures Add(late, d)[x] == LateCall(first, second + [d], x)
    {
      LateNext(first, second, d, x);
    }
  }

  /** Deltas after a flush: in Rust they start new arguments under the identity known so far. */
  lemma {:induction false} LateDeltas(first: seq<Delta>, second: seq<Delta>)
    ensures AddAll(Cleared(AddAll(map[], first)), second) == LateMap(first, second)
  {
    if second == [] {
      assert first + second == first;
      MapAssembles(first);
    } else {
      hide LateMap, Add;
      var before := second[..|second| - 1];
      LateDeltas(first, before);
      assert second == before + [second[|second| - 1]];
      LateMapNext(first, before, second[|second| - 1]);
    }
  }

  /** A flush forgets when the arguments came, not what the calls are. */
  lemma ClearedLate(first: seq<Delta>, second: seq<Delta>)
    ensures Cleared(LateMap(first, second)) == Cleared(AddAll(map[], first + second))
  {
    hide Assembled;
    MapAssembles(first + second);
  }

  // ---------------------------------------------------------------- streams of any length

  /** What a line of a stream does to the calls: the deltas it brings, and whether it flushes. */
  datatype Mark = Mark(deltas: seq<Delta>, flushes: bool)

  /** The last segment grows. */
  function Extended(segments: seq<seq<Delta>>, deltas: seq<Delta>): (r: seq<seq<Delta>>)
    requires segments != []
    ensures |r| == |segments|
  {
    var k := |segments| - 1;
    segments[..k] + [segments[k] + deltas]
  }

  /** The deltas of a stream between its flushes; the last segment is not flushed yet. */
  function Segments(marks: seq<Mark>): (segments: seq<seq<Delta>>)
    ensures segments != []
  {
    if marks == [] then [[]]
    else
      var last := marks[|marks| - 1];
      Extended(Segments(marks[..|marks| - 1]), last.deltas) + if last.flushes then [[]] else []
  }

  function Flat(segments: seq<seq<Delta>>): seq<Delta> {
    if segments == [] then [] else Flat(segments[..|segments| - 1]) + segments[|segments| - 1]
  }

  function AllDeltas(marks: seq<Mark>): seq<Delta> {
    if marks == [] then [] else AllDeltas(marks[..|marks| - 1]) + marks[|marks| - 1].deltas
  }

  function Flushes(marks: seq<Mark>): nat {
    if marks == [] then 0 else Flushes(marks[..|marks| - 1]) + if marks[|marks| - 1].flushes then 1 else 0
  }

  lemma FlatNext(segments: seq<seq<Delta>>, deltas: seq<Delta>)
    ensures Flat(segments + [deltas]) == Flat(segments) + deltas
  {
    assert (segments + [deltas])[..|segments|] == segments;
  }

  /** One more line: its deltas join the open segment, and a flush closes it. */
  lemma SegmentsNext(marks: seq<Mark>, mark: Mark)
    ensures var before := Segments(marks);
      var grown := Extended(before, mark.deltas);
      Segments(marks + [mark]) == if mark.flushes then grown + [[]] else grown
  {
    assert (marks + [mark])[..|marks|] == marks;
    assert Extended(Segments(marks), mark.deltas) + [] == Extended(Segments(marks), mark.deltas);
  }

  lemma FlatExtended(segments: seq<seq<Delta>>, deltas: seq<Delta>)
    requires segments != []
    ensures Flat(Extended(segments, deltas)) == Flat(segments) + deltas
  {
    hide Flat;
    var front, last := segments[..|segments| - 1], segments[|segments| - 1];
    assert segments == front + [last];
    FlatNext(front, last);
    FlatNext(front, last + deltas);
  }

  /** The segments are the deltas of the stream in order, cut behind each flush. */
  lemma {:induction false} SegmentsHoldAll(marks: seq<Mark>)
    ensures Flat(Segments(marks)) == AllDeltas(marks) && |Segments(marks)| == Flushes(marks) + 1
  {
    if marks == [] {
      FlatNext([], []);
      assert [] + [[]] == Segments(marks);
    } else {
      var before, last := marks[..|marks| - 1], marks[|marks| - 1];
      SegmentsHoldAll(before);
      assert marks == before + [last];
      hide Segments, Flat;
      SegmentsNext(before, last);
      FlatExtended(Segments(before), last.deltas);
      FlatNext(Extended(Segments(before), last.deltas), []);
    }
  }

  /** What the Go client emits: each flush empties the map. */
  ghost function FlushAnew(segments: seq<seq<Delta>>): seq<Slot> {
    if segments == [] then []
    else FlushAnew(segments[..|segments| - 1]) + Flush(AddAll(map[], segments[|segments| - 1]))
  }

  /** What the Rust client emits: a call keeps its identity over the flushes. */
  ghost function FlushOn(segments: seq<seq<Delta>>): seq<Slot> {
    if segments == [] then []
    else
      var n := |segments| - 1;
      FlushOn(segments[..n]) + Flush(LateMap(Flat(segments[..n]), segments[n]))
  }

  lemma FlushAnewNext(segments: seq<seq<Delta>>, deltas: seq<Delta>)
    ensures FlushAnew(segments + [deltas]) == FlushAnew(segments) + Flush(AddAll(map[], deltas))
  {
    hide Flush, AddAll;
    assert (segments + [deltas])[..|segments|] == segments;
  }

  lemma FlushOnNext(segments: seq<seq<Delta>>, deltas: seq<Delta>)
    ensures FlushOn(segments + [deltas]) == FlushOn(segments) + Flush(LateMap(Flat(segments), deltas))
  {
    hide Flush, LateMap, Flat;
    assert (segments + [deltas])[..|segments|] == segments;
  }

  /** A segment without deltas emits nothing, in either client. */
  lemma EmptySegment(before: seq<Delta>)
    ensures Flush(AddAll(map[], [])) == [] && Flush(LateMap(before, [])) == []
  {
    hide Flush, LateMap;
    NothingToFlush(AddAll(map[], []));
    LateDeltas(before, []);
    SecondFlushIsEmpty(AddAll(map[], before));
  }

  /**
   When all deltas come before the first flush, later flushes emit nothing: both clients
   emit each call once, however often they flush.
   */
  lemma {:induction false} OnlyFirstSegment(segments: seq<seq<Delta>>)
    requires segments != [] && forall k :: 1 <= k < |segments| ==> segments[k] == []
    ensures FlushAnew(segments) == FlushOn(segments) == Flush(AddAll(map[], segments[0]))
  {
    hide Flush, LateMap, AddAll;
    var n := |segments| - 1;
    assert segments[..n] + [segments[n]] == segments;
    FlushAnewNext(segments[..n], segments[n]);
    FlushOnNext(segments[..n], segments[n]);
    if n > 0 {
      OnlyFirstSegment(segments[..n]);
      EmptySegment(Flat(segments[..n]));
    } else {
      FirstSegment(segments[0]);
      assert segments[..n] == [];
    }
  }

  /** Nothing comes after the first segment when it holds everything. */
  lemma {:induction false} OthersAreEmpty(segments: seq<seq<Delta>>)
    requires segments != [] && segments[0] == Flat(segments)
    ensures forall k :: 1 <= k < |segments| ==> segments[k] == []
  {
    var n := |segments| - 1;
    if n > 0 {
      FirstIsPrefix(segments[..n]);
      assert |Flat(segments)| == |Flat(segments[..n])| + |segments[n]|;
      OthersAreEmpty(segments[..n]);
    }
  }

  lemma {:induction false} FirstIsPrefix(segments: seq<seq<Delta>>)
    requires segments != []
    ensures segments[0] <= Flat(segments)
  {
    if |segments| > 1 { FirstIsPrefix(segments[..|segments| - 1]); }
  }

  lemma FirstSegment(deltas: seq<Delta>)
    ensures LateMap([], deltas) == AddAll(map[], deltas)
  {
    LateDeltas([], deltas);
    assert AddAll(map[], []) == map[] && Cleared(map[]) == map[];
  }

  /** Two rounds through the Rust client's map, flushed twice between them. */
  method ReassembleInMap(first: seq<Delta>, second: seq<Delta>)
    returns (slots: seq<Slot>, again: seq<Slot>, late: seq<Slot>)
    ensures slots == Flush(AddAll(map[], first)) && again == []
    ensures late == Flush(LateMap(first, second))
  {
    hide Flush, LateMap;
    var pending := new PendingCalls();
    PushAll(pending, first);
    slots := pending.EmitPending();
    again := pending.EmitPending();
    SecondFlushIsEmpty(AddAll(map[], first));
    ClearedTwice(AddAll(map[], first));
    PushAll(pending, second);
    LateDeltas(first, second);
    late := pending.EmitPending();
  }

  method PushAll(pending: PendingCalls, deltas: seq<Delta>)
    modifies pending
    ensures pending.calls == AddAll(old(pending.calls), deltas)
  {
    for i := 0 to |deltas|
      invariant pending.calls == AddAll(old(pending.calls), deltas[..i])
    {
      assert deltas[..i + 1][..i] == deltas[..i];
      pending.Push(deltas[i]);
    }
    assert deltas[..|deltas|] == deltas;
  }

  lemma ClearedTwice(pending: Pending)
    ensures Cleared(Cleared(pending)) == Cleared(pending)
  {
  }
}
