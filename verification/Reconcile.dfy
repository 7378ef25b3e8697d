/** Matching an old list against a fresh enumeration. */
module Reconcile {
  import opened Basics
  import opened Sums

  // As AdbDeviceMon::ProcessDevices and MtpDeviceMon::ProcessDevices do it, every enumerated key takes the first
  // old record with that key that has not been taken, or none.

  /** The first record with the key, or the end of the list. */
  function Find<R, K(==)>(s: seq<R>, key: R -> K, k: K): (i: nat)
    ensures i <= |s| && (i < |s| ==> key(s[i]) == k)
    ensures forall j | 0 <= j < i :: key(s[j]) != k
  {
    if s == [] || key(s[0]) == k then 0 else 1 + Find(s[1..], key, k)
  }

  /** The inner loop of the search, `itr` being an index. */
  method FindFirst<R, K(==)>(s: seq<R>, key: R -> K, k: K) returns (itr: nat)
    ensures itr == Find(s, key, k)
  {
    itr := 0;
    while itr != |s| && key(s[itr]) != k
      invariant itr <= |s| && forall j | 0 <= j < itr :: key(s[j]) != k
    {
      itr := itr + 1;
    }
  }

  datatype Matched<R> = Matched(taken: seq<Option<R>>, left: seq<R>)

  function Take<R, K(==)>(m: Matched<R>, key: R -> K, k: K): Matched<R> {
    var i := Find(m.left, key, k);
    if i == |m.left| then Matched(m.taken + [None], m.left)
    else Matched(m.taken + [Some(m.left[i])], Without(m.left, i))
  }

  function Match<R, K(==)>(listed: seq<R>, wanted: seq<K>, key: R -> K): (m: Matched<R>)
    ensures |m.taken| == |wanted|
  {
    if wanted == [] then Matched([], listed)
    else Take(Match(listed, wanted[..|wanted| - 1], key), key, wanted[|wanted| - 1])
  }

  function Reused<R>(taken: seq<Option<R>>): seq<R> {
    if taken == [] then []
    else
      var last := taken[|taken| - 1];
      Reused(taken[..|taken| - 1]) + if last.Some? then [last.value] else []
  }

  /** The enumerated keys for which no record was found. */
  function Missing<R, K>(taken: seq<Option<R>>, wanted: seq<K>): seq<K>
    requires |taken| == |wanted|
  {
    if taken == [] then []
    else
      var n := |taken| - 1;
      Missing(taken[..n], wanted[..n]) + if taken[n].None? then [wanted[n]] else []
  }

  lemma WithoutBag<T>(s: seq<T>, i: nat)
    requires i < |s|
    ensures multiset(s) == multiset(Without(s, i)) + multiset{s[i]}
  {
    assert s == s[..i] + [s[i]] + s[i + 1..];
  }

  /** How many records have the key. */
  function Count<R, K(==)>(s: seq<R>, key: R -> K, k: K): nat {
    if s == [] then 0 else Count(s[1..], key, k) + if key(s[0]) == k then 1 else 0
  }

  lemma {:induction false} CountSplit<R, K>(a: seq<R>, b: seq<R>, key: R -> K, k: K)
    ensures Count(a + b, key, k) == Count(a, key, k) + Count(b, key, k)
  {
    if a == [] {
      assert a + b == b;
    } else {
      assert (a + b)[1..] == a[1..] + b;
      CountSplit(a[1..], b, key, k);
    }
  }

  lemma {:induction false} CountWithout<R, K>(s: seq<R>, i: nat, key: R -> K, k: K)
    requires i < |s|
    ensures Count(Without(s, i), key, k) == Count(s, key, k) - if key(s[i]) == k then 1 else 0
  {
    if i == 0 {
      assert Without(s, 0) == s[1..];
    } else {
      CountWithout(s[1..], i - 1, key, k);
      assert Without(s, i)[1..] == Without(s[1..], i - 1);
    }
  }

  lemma {:induction false} CountNone<R, K>(s: seq<R>, key: R -> K, k: K)
    ensures Count(s, key, k) == 0 <==> Find(s, key, k) == |s|
  {
    if s == [] {
    } else {
      CountNone(s[1..], key, k);
    }
  }

  lemma TakeConserves<R, K>(b: Matched<R>, key: R -> K, k: K)
    ensures var m := Take(b, key, k);
      multiset(Reused(m.taken)) + multiset(m.left) == multiset(Reused(b.taken)) + multiset(b.left)
  {
    var m := Take(b, key, k);
    assert m.taken[..|m.taken| - 1] == b.taken;
    var i := Find(b.left, key, k);
    if i < |b.left| {
      WithoutBag(b.left, i);
      assert Reused(m.taken) == Reused(b.taken) + [b.left[i]];
    } else {
      assert Reused(m.taken) == Reused(b.taken);
    }
  }

  /** No record is lost or used twice. */
  lemma {:induction false} MatchConserves<R, K>(listed: seq<R>, wanted: seq<K>, key: R -> K)
    ensures var m := Match(listed, wanted, key);
      multiset(listed) == multiset(Reused(m.taken)) + multiset(m.left)
  {
    if wanted == [] {
    } else {
      var w, k := wanted[..|wanted| - 1], wanted[|wanted| - 1];
      var b := Match(listed, w, key);
      MatchConserves(listed, w, key);
      TakeConserves(b, key, k);
    }
  }

  /** A record taken for a key has that key. */
  lemma {:induction false} MatchFits<R, K>(listed: seq<R>, wanted: seq<K>, key: R -> K, i: nat)
    requires i < |wanted| && Match(listed, wanted, key).taken[i].Some?
    ensures key(Match(listed, wanted, key).taken[i].value) == wanted[i]
  {
    var w, k := wanted[..|wanted| - 1], wanted[|wanted| - 1];
    if i == |w| {
    } else {
      MatchFits(listed, w, key, i);
    }
  }

  function Itself<K>(k: K): K { k }

  lemma TakeCounts<R, K>(b: Matched<R>, wanted: seq<K>, key: R -> K, k: K, x: K)
    requires |b.taken| == |wanted|
    ensures var m := Take(b, key, k);
      var one, hit := if x == k then 1 else 0, Count(b.left, key, k) > 0;
      && Count(m.left, key, x) == Count(b.left, key, x) - (if hit then one else 0)
      && Count(Reused(m.taken), key, x) == Count(Reused(b.taken), key, x) + (if hit then one else 0)
      && Count(Missing(m.taken, wanted + [k]), Itself, x)
         == Count(Missing(b.taken, wanted), Itself, x) + (if hit then 0 else one)
  {
    var m := Take(b, key, k);
    assert m.taken[..|wanted|] == b.taken && (wanted + [k])[..|wanted|] == wanted;
    var i := Find(b.left, key, k);
    CountNone(b.left, key, k);
    if i < |b.left| {
      CountWithout(b.left, i, key, x);
      CountSplit(Reused(b.taken), [b.left[i]], key, x);
      assert Reused(m.taken) == Reused(b.taken) + [b.left[i]];
      assert Missing(m.taken, wanted + [k]) == Missing(b.taken, wanted);
    } else {
      CountSplit(Missing(b.taken, wanted), [k], Itself, x);
      assert Reused(m.taken) == Reused(b.taken);
    }
  }

  ghost predicate CountsOk<R, K>(m: Matched<R>, listed: seq<R>, wanted: seq<K>, key: R -> K, x: K)
    requires |m.taken| == |wanted|
  {
    var had, now := Count(listed, key, x), Count(wanted, Itself, x);
    && Count(m.left, key, x) == Max(0, had - now)
    && Count(Missing(m.taken, wanted), Itself, x) == Max(0, now - had)
    && Count(Reused(m.taken), key, x) == Min(had, now)
  }

  lemma CountLast<K>(w: seq<K>, k: K, x: K)
    ensures Count(w + [k], Itself, x) == Count(w, Itself, x) + if k == x then 1 else 0
  {
    CountSplit(w, [k], Itself, x);
    assert [k][1..] == [];
  }

  /** One more is wanted of a key, or of another one; it is found exactly if some are left. */
  lemma OneMore(had: nat, now: nat, left: nat, one: nat, hit: bool)
    requires left == Max(0, had - now) && one <= 1 && (one == 1 ==> (hit <==> left > 0))
    ensures left - (if hit then one else 0) == Max(0, had - (now + one))
    ensures Max(0, now - had) + (if hit then 0 else one) == Max(0, now + one - had)
    ensures Min(had, now) + (if hit then one else 0) == Min(had, now + one)
  {
  }

  lemma OneMoreWanted<R, K>(b: Matched<R>, listed: seq<R>, w: seq<K>, key: R -> K, k: K, x: K)
    requires |b.taken| == |w| && CountsOk(b, listed, w, key, x)
    ensures CountsOk(Take(b, key, k), listed, w + [k], key, x)
  {
    var one := if k == x then 1 else 0;
    var hit := Count(b.left, key, k) > 0;
    var had, now, left := Count(listed, key, x), Count(w, Itself, x), Count(b.left, key, x);
    OneMore(had, now, left, one, hit);
    assert Count(w + [k], Itself, x) == now + one by {
      CountLast(w, k, x);
    }
    TakeCounts(b, w, key, k, x);
  }

  /** For every key: records left over are old minus new, enumerated keys without a record new minus old,
      and records taken as many as the two have in common. */
  lemma {:induction false} MatchCounts<R, K>(listed: seq<R>, wanted: seq<K>, key: R -> K, x: K)
    ensures CountsOk(Match(listed, wanted, key), listed, wanted, key, x)
  {
    if wanted == [] {
    } else {
      var w, k := wanted[..|wanted| - 1], wanted[|wanted| - 1];
      assert wanted == w + [k];
      MatchCounts(listed, w, key, x);
      OneMoreWanted(Match(listed, w, key), listed, w, key, k, x);
    }
  }

  /** Whatever is summed, matching conserves it. */
  lemma {:induction false} MatchTotals<R, K>(listed: seq<R>, wanted: seq<K>, key: R -> K, f: R -> nat)
    ensures var m := Match(listed, wanted, key);
      Total(listed, f) == Total(Reused(m.taken), f) + Total(m.left, f)
  {
    if wanted == [] {
    } else {
      var n := |wanted| - 1;
      var m, b := Match(listed, wanted, key), Match(listed, wanted[..n], key);
      MatchTotals(listed, wanted[..n], key, f);
      assert m.taken[..n] == b.taken;
      var i := Find(b.left, key, wanted[n]);
      if i < |b.left| {
        TotalWithout(b.left, i, f);
        TotalLast(Reused(b.taken), b.left[i], f);
        assert Reused(m.taken) == Reused(b.taken) + [b.left[i]];
      } else {
        assert Reused(m.taken) == Reused(b.taken);
      }
    }
  }
}
