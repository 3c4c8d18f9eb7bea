/** Weighted sums over the program counters of a population of threads.
    A count of the threads in some region is a sum of 0/1 weights. */
module Counting {

  function Sum<T>(s: seq<T>, w: T -> int): int {
    if s == [] then 0 else w(s[0]) + Sum(s[1..], w)
  }

  lemma {:induction false} SumUpdate<T>(s: seq<T>, i: nat, x: T, w: T -> int)
    requires i < |s|
    ensures Sum(s[i := x], w) == Sum(s, w) - w(s[i]) + w(x)
  {
    if i == 0 {
      assert s[i := x][1..] == s[1..];
    } else {
      assert s[i := x][1..] == s[1..][i - 1 := x];
      SumUpdate(s[1..], i - 1, x, w);
    }
  }

  /** With nonnegative weights, one element weighs no more than the whole. */
  lemma {:induction false} SumAtLeast<T>(s: seq<T>, i: nat, w: T -> int)
    requires i < |s|
    requires forall j | 0 <= j < |s| :: w(s[j]) >= 0
    ensures Sum(s, w) >= w(s[i])
  {
    SumNonNegative(s[1..], w);
    if i > 0 {
      SumAtLeast(s[1..], i - 1, w);
    }
  }

  lemma {:induction false} SumNonNegative<T>(s: seq<T>, w: T -> int)
    requires forall j | 0 <= j < |s| :: w(s[j]) >= 0
    ensures Sum(s, w) >= 0
  {
    if s != [] {
      SumNonNegative(s[1..], w);
    }
  }

  /** A positive sum has a positive summand. */
  lemma {:induction false} SumWitness<T>(s: seq<T>, w: T -> int) returns (i: nat)
    requires Sum(s, w) > 0
    ensures i < |s| && w(s[i]) > 0
  {
    if w(s[0]) > 0 {
      i := 0;
    } else {
      i := SumWitness(s[1..], w);
      i := i + 1;
    }
  }

  lemma {:induction false} SumConstant<T>(s: seq<T>, w: T -> int, k: int)
    requires forall j | 0 <= j < |s| :: w(s[j]) == k
    ensures Sum(s, w) == k * |s|
  {
    if s != [] {
      SumConstant(s[1..], w, k);
    }
  }

  /** Weights of at most one, one of them missing. */
  lemma {:induction false} SumBelowLength<T>(s: seq<T>, i: nat, w: T -> int)
    requires i < |s| && w(s[i]) <= 0
    requires forall j | 0 <= j < |s| :: w(s[j]) <= 1
    ensures Sum(s, w) <= |s| - 1
  {
    SumAtMostLength(s[1..], w);
    if i > 0 {
      SumBelowLength(s[1..], i - 1, w);
    }
  }

  lemma {:induction false} SumAtMostLength<T>(s: seq<T>, w: T -> int)
    requires forall j | 0 <= j < |s| :: w(s[j]) <= 1
    ensures Sum(s, w) <= |s|
  {
    if s != [] {
      SumAtMostLength(s[1..], w);
    }
  }

  /** Replacing a population pointwise by one of equal weights. */
  lemma {:induction false} SumPointwise<T>(s: seq<T>, t: seq<T>, w: T -> int)
    requires |s| == |t|
    requires forall j | 0 <= j < |s| :: w(s[j]) == w(t[j])
    ensures Sum(s, w) == Sum(t, w)
  {
    if s != [] {
      SumPointwise(s[1..], t[1..], w);
    }
  }

  /** Nowhere more, and somewhere less. */
  lemma {:induction false} SumDrops<T>(s: seq<T>, t: seq<T>, i: nat, w: T -> int)
    requires |s| == |t| && i < |s| && w(t[i]) < w(s[i])
    requires forall j | 0 <= j < |s| :: w(t[j]) <= w(s[j])
    ensures Sum(t, w) < Sum(s, w)
  {
    SumNotMore(s[1..], t[1..], w);
    if i > 0 {
      SumDrops(s[1..], t[1..], i - 1, w);
    }
  }

  lemma {:induction false} SumNotMore<T>(s: seq<T>, t: seq<T>, w: T -> int)
    requires |s| == |t|
    requires forall j | 0 <= j < |s| :: w(t[j]) <= w(s[j])
    ensures Sum(t, w) <= Sum(s, w)
  {
    if s != [] {
      SumNotMore(s[1..], t[1..], w);
    }
  }

  /** The values that the elements of a sequence hold, gathered. */
  ghost function Gather<T, U>(s: seq<T>, f: T -> multiset<U>): multiset<U> {
    if s == [] then multiset{} else f(s[0]) + Gather(s[1..], f)
  }

  lemma {:induction false} GatherUpdate<T, U>(s: seq<T>, i: nat, x: T, f: T -> multiset<U>)
    requires i < |s|
    ensures Gather(s[i := x], f) + f(s[i]) == Gather(s, f) + f(x)
  {
    if i == 0 {
      assert s[i := x][1..] == s[1..];
    } else {
      assert s[i := x][1..] == s[1..][i - 1 := x];
      GatherUpdate(s[1..], i - 1, x, f);
      var rest := s[1..];
      assert Gather(s[i := x], f) + f(s[i]) == f(s[0]) + (Gather(rest[i - 1 := x], f) + f(rest[i - 1]));
      assert Gather(s, f) + f(x) == f(s[0]) + (Gather(rest, f) + f(x));
    }
  }

  lemma {:induction false} GatherNothing<T, U>(s: seq<T>, f: T -> multiset<U>)
    requires forall j | 0 <= j < |s| :: f(s[j]) == multiset{}
    ensures Gather(s, f) == multiset{}
  {
    if s != [] {
      GatherNothing(s[1..], f);
    }
  }

  lemma {:induction false} GatherPointwise<T, U>(s: seq<T>, t: seq<T>, f: T -> multiset<U>)
    requires |s| == |t|
    requires forall j | 0 <= j < |s| :: f(s[j]) == f(t[j])
    ensures Gather(s, f) == Gather(t, f)
  {
    if s != [] {
      GatherPointwise(s[1..], t[1..], f);
    }
  }
}
