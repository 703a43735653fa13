/** Concatenation, in the forms that inductions over sequences need, and the pieces of items joined. */
module Sequences {

  lemma Associate<T>(a: seq<T>, b: seq<T>, c: seq<T>)
    ensures a + b + c == a + (b + c)
  {
  }

  lemma FirstApart<T>(a: seq<T>, b: seq<T>)
    requires a != []
    ensures a + b == [a[0]] + (a[1..] + b) && a == [a[0]] + a[1..]
  {
  }

  lemma LastApart<T>(a: seq<T>, b: seq<T>)
    requires b != []
    ensures a + b == (a + b[..|b| - 1]) + [b[|b| - 1]] && b == b[..|b| - 1] + [b[|b| - 1]]
  {
  }

  lemma Empty<T>(a: seq<T>)
    ensures [] + a == a && a + [] == a
  {
  }

  // ---------------------------------------------------------------- pieces of items

  function Concat<A, B>(pieces: A -> seq<B>, items: seq<A>): seq<B> {
    if items == [] then [] else pieces(items[0]) + Concat(pieces, items[1..])
  }

  lemma ConcatNothing<A, B>(pieces: A -> seq<B>)
    ensures Concat(pieces, []) == []
  {
  }

  lemma ConcatFirst<A, B>(pieces: A -> seq<B>, first: A, rest: seq<A>)
    ensures Concat(pieces, [first] + rest) == pieces(first) + Concat(pieces, rest)
  {
    assert ([first] + rest)[1..] == rest;
  }

  lemma ConcatOne<A, B>(pieces: A -> seq<B>, item: A)
    ensures Concat(pieces, [item]) == pieces(item)
  {
    ConcatFirst(pieces, item, []);
    Empty([item]);
    Empty(pieces(item));
  }

  lemma {:induction false} ConcatSplit<A, B>(pieces: A -> seq<B>, a: seq<A>, b: seq<A>)
    ensures Concat(pieces, a + b) == Concat(pieces, a) + Concat(pieces, b)
  {
    if a == [] {
      Empty(b);
      Empty(Concat(pieces, b));
    } else {
      FirstApart(a, b);
      ConcatSplit(pieces, a[1..], b);
      ConcatFirst(pieces, a[0], a[1..] + b);
      Associate(pieces(a[0]), Concat(pieces, a[1..]), Concat(pieces, b));
    }
  }

  lemma ConcatNext<A, B>(pieces: A -> seq<B>, items: seq<A>, item: A)
    ensures Concat(pieces, items + [item]) == Concat(pieces, items) + pieces(item)
  {
    ConcatSplit(pieces, items, [item]);
    ConcatOne(pieces, item);
  }

  lemma {:induction false} ConcatNone<A, B>(pieces: A -> seq<B>, items: seq<A>)
    requires forall i :: 0 <= i < |items| ==> pieces(items[i]) == []
    ensures Concat(pieces, items) == []
  {
    if items != [] { ConcatNone(pieces, items[1..]); }
  }
}
