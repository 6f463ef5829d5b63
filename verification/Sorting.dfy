/** Stable insertion sort: the meaning given here to Python's `sorted(..., key=...)`. */
module Sorting {
  import opened Text

  function InsertBy<T>(x: T, ys: seq<T>, le: (T, T) -> bool): seq<T>
  {
    if ys == [] then [x]
    else if le(x, ys[0]) then [x] + ys
    else [ys[0]] + InsertBy(x, ys[1..], le)
  }

  /** `le` reflexive on ties keeps equal elements in their original order. */
  function SortBy<T>(xs: seq<T>, le: (T, T) -> bool): seq<T>
  {
    if xs == [] then [] else InsertBy(xs[0], SortBy(xs[1..], le), le)
  }

  ghost predicate TotalPreorder<T(!new)>(le: (T, T) -> bool)
  {
    && (forall a, b :: le(a, b) || le(b, a))
    && (forall a, b, c :: le(a, b) && le(b, c) ==> le(a, c))
  }

  /** Comparing by a key, upwards or downwards. */
  lemma KeysOrder<T(!new)>(key: T -> string, le: (T, T) -> bool)
    requires (forall a, b :: le(a, b) <==> LexLeq(key(a), key(b))) || forall a, b :: le(a, b) <==> LexLeq(key(b), key(a))
    ensures TotalPreorder(le)
  {
    forall a: T, b: T ensures le(a, b) || le(b, a) {
      LexTotal(key(a), key(b));
    }
    forall a: T, b: T, c: T | le(a, b) && le(b, c) ensures le(a, c) {
      if LexLeq(key(a), key(b)) && LexLeq(key(b), key(c)) { LexTransitive(key(a), key(b), key(c)); }
      if LexLeq(key(c), key(b)) && LexLeq(key(b), key(a)) { LexTransitive(key(c), key(b), key(a)); }
    }
  }

  ghost predicate SortedBy<T>(xs: seq<T>, le: (T, T) -> bool)
  {
    xs == [] || ((forall y :: y in xs[1..] ==> le(xs[0], y)) && SortedBy(xs[1..], le))
  }

  lemma {:induction false} InsertPermutes<T>(x: T, ys: seq<T>, le: (T, T) -> bool)
    ensures multiset(InsertBy(x, ys, le)) == multiset{x} + multiset(ys)
  {
    if ys != [] && !le(x, ys[0]) {
      InsertPermutes(x, ys[1..], le);
      assert ys == [ys[0]] + ys[1..];
    }
  }

  lemma {:induction false} InsertKeepsOrder<T(!new)>(x: T, ys: seq<T>, le: (T, T) -> bool)
    requires TotalPreorder(le)
    requires SortedBy(ys, le)
    ensures SortedBy(InsertBy(x, ys, le), le)
  {
    if ys == [] {
    } else if le(x, ys[0]) {
      assert ([x] + ys)[1..] == ys;
      forall y | y in ys ensures le(x, y) {
        if y != ys[0] { assert y in ys[1..]; assert le(ys[0], y); }
      }
    } else {
      var rest := InsertBy(x, ys[1..], le);
      InsertKeepsOrder(x, ys[1..], le);
      InsertPermutes(x, ys[1..], le);
      assert ([ys[0]] + rest)[1..] == rest;
      forall y | y in rest ensures le(ys[0], y) {
        assert y in multiset(rest);
      }
    }
  }

  /** Sorting yields an ordered permutation of its input. */
  lemma {:induction false} SortIsOrderedPermutation<T(!new)>(xs: seq<T>, le: (T, T) -> bool)
    requires TotalPreorder(le)
    ensures SortedBy(SortBy(xs, le), le)
    ensures multiset(SortBy(xs, le)) == multiset(xs)
    ensures |SortBy(xs, le)| == |xs|
  {
    if xs == [] {
    } else {
      SortIsOrderedPermutation(xs[1..], le);
      InsertKeepsOrder(xs[0], SortBy(xs[1..], le), le);
      InsertPermutes(xs[0], SortBy(xs[1..], le), le);
      assert xs == [xs[0]] + xs[1..];
      assert |SortBy(xs, le)| == |multiset(SortBy(xs, le))| == |multiset(xs)|;
    }
  }

  function Reverse<T>(xs: seq<T>): (r: seq<T>)
    ensures |r| == |xs|
  {
    if xs == [] then [] else Reverse(xs[1..]) + [xs[0]]
  }

  lemma {:induction false} ReverseAt<T>(xs: seq<T>, i: nat)
    requires i < |xs|
    ensures Reverse(xs)[i] == xs[|xs| - 1 - i]
  {
    if i < |xs| - 1 {
      ReverseAt(xs[1..], i);
    }
  }

  lemma {:induction false} ReverseSnoc<T>(xs: seq<T>, x: T)
    ensures Reverse(xs + [x]) == [x] + Reverse(xs)
  {
    if xs == [] {
      assert xs + [x] == [x] && [x][1..] == [];
    } else {
      assert (xs + [x])[1..] == xs[1..] + [x];
      ReverseSnoc(xs[1..], x);
    }
  }

  lemma {:induction false} ReverseKeepsMembers<T>(xs: seq<T>)
    ensures multiset(Reverse(xs)) == multiset(xs)
  {
    if xs != [] {
      ReverseKeepsMembers(xs[1..]);
      assert xs == [xs[0]] + xs[1..];
    }
  }
}
