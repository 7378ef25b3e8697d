/** Sums over sequences. */
module Sums {
  import opened Basics

  function Total<R>(s: seq<R>, f: R -> nat): nat {
    if s == [] then 0 else f(s[0]) + Total(s[1..], f)
  }

  lemma {:induction false} TotalSplit<R>(a: seq<R>, b: seq<R>, f: R -> nat)
    ensures Total(a + b, f) == Total(a, f) + Total(b, f)
  {
    if a == [] {
      assert a + b == b;
    } else {
      assert (a + b)[1..] == a[1..] + b;
      TotalSplit(a[1..], b, f);
    }
  }

  lemma TotalLast<R>(a: seq<R>, r: R, f: R -> nat)
    ensures Total(a + [r], f) == Total(a, f) + f(r)
  {
    TotalSplit(a, [r], f);
    assert [r][1..] == [];
  }

  lemma {:induction false} TotalWithout<R>(s: seq<R>, i: nat, f: R -> nat)
    requires i < |s|
    ensures Total(s, f) == Total(Without(s, i), f) + f(s[i])
  {
    if i == 0 {
      assert Without(s, 0) == s[1..];
    } else {
      TotalWithout(s[1..], i - 1, f);
      assert Without(s, i)[1..] == Without(s[1..], i - 1);
    }
  }

  lemma TotalUpdate<R>(s: seq<R>, i: nat, r: R, f: R -> nat)
    requires i < |s|
    ensures Total(s[i := r], f) == Total(s, f) - f(s[i]) + f(r)
  {
    TotalWithout(s, i, f);
    TotalWithout(s[i := r], i, f);
    assert Without(s[i := r], i) == Without(s, i);
  }
}
