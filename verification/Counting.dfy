/** How often an element occurs in a sequence. */
module Counting {

  function Count<T(==)>(xs: seq<T>, x: T): nat {
    multiset(xs)[x]
  }

  lemma CountSnoc<T>(xs: seq<T>, last: T, x: T)
    ensures Count(xs + [last], x) == Count(xs, x) + if last == x then 1 else 0
  {
  }

  lemma CountConcat<T>(xs: seq<T>, ys: seq<T>, x: T)
    ensures Count(xs + ys, x) == Count(xs, x) + Count(ys, x)
  {
  }

  // Taking the head off a sequence takes one occurrence with it.
  lemma CountTail<T>(xs: seq<T>, x: T)
    requires xs != []
    ensures Count(xs, x) == Count(xs[1..], x) + if xs[0] == x then 1 else 0
  {
    assert xs == [xs[0]] + xs[1..];
  }

  lemma CountMember<T>(xs: seq<T>, x: T)
    ensures x in xs <==> Count(xs, x) > 0
  {
  }
}
