/** jni/libdevmgr/dev/AdbDeviceMon.cpp: reconciling the device list with a fresh enumeration, and
    telling DeviceCenter about the difference. */
module AdbDeviceMon {
  import opened Basics
  import opened Objects
  import opened Reconcile
  import opened DeviceCenter

  type Ops = seq<Op<Device, Observer>>

  function Attaches(devs: seq<Device>): Ops { seq(|devs|, i requires 0 <= i < |devs| => OpAttach(devs[i])) }

  function Detaches(devs: seq<Device>): Ops { seq(|devs|, i requires 0 <= i < |devs| => OpDetach(devs[i])) }

  ghost function Elements(devs: seq<Device>): set<Device> { set d | d in devs }

  /** The calls one reconciliation makes: an attach for each new object, then a detach for each leftover. */
  function Calls(m: Matched<Device>, list: seq<Device>): Ops
    requires |list| == |m.taken|
  {
    Attaches(Missing(m.taken, list)) + Detaches(m.left)
  }

  // ---------------------------------------------------------------- two lists of the same objects

  ghost predicate SameSet<T>(a: seq<T>, b: seq<T>) {
    NoDup(a) && NoDup(b) && (forall x | x in a :: x in b) && (forall x | x in b :: x in a)
  }

  lemma NoDupSplit<T>(a: seq<T>, b: seq<T>)
    requires NoDup(a + b)
    ensures NoDup(b) && forall x | x in a :: x !in b
  {
    assert forall i | 0 <= i < |b| :: b[i] == (a + b)[|a| + i];
    forall x | x in a ensures x !in b {
      var i :| 0 <= i < |a| && a[i] == x;
      assert (a + b)[i] == x;
    }
  }

  lemma SameAfterAdd<T>(a: seq<T>, rest: seq<T>, b: seq<T>, x: T)
    requires SameSet(a + rest, b) && x !in b
    ensures SameSet(a + [x] + rest, b + [x])
  {
    var s, t := a + rest, a + [x] + rest;
    assert forall y | y in s :: y in t;
    forall i, j | 0 <= i < j < |t| ensures t[i] != t[j] {
      var f := (k: int) => if k < |a| then k else k - 1;
      assert i != |a| ==> t[i] == s[f(i)];
      assert j != |a| ==> t[j] == s[f(j)];
    }
  }

  lemma NoDupWithout<T>(s: seq<T>, i: nat)
    requires NoDup(s) && i < |s|
    ensures NoDup(Without(s, i)) && forall x :: x in Without(s, i) <==> x in s && x != s[i]
  {
    var t := Without(s, i);
    assert forall k | 0 <= k < |t| :: t[k] == s[if k < i then k else k + 1];
    WithoutMembers(s, i);
  }

  lemma SameAfterRemove<T>(a: seq<T>, x: T, rest: seq<T>, b: seq<T>)
    requires SameSet(a + [x] + rest, b)
    ensures x in b && SameSet(a + rest, Remove(b, x))
  {
    var s := a + [x] + rest;
    assert s[|a|] == x && Without(s, |a|) == a + rest;
    NoDupWithout(s, |a|);
    NoDupWithout(b, IndexOf(b, x));
  }

  lemma SameAfterMove<T>(a: seq<T>, left: seq<T>, i: nat, b: seq<T>)
    requires SameSet(a + left, b) && i < |left|
    ensures SameSet(a + [left[i]] + Without(left, i), b)
  {
    var s, t := a + left, a + [left[i]] + Without(left, i);
    var n := |a|;
    forall k, l | 0 <= k < l < |t| ensures t[k] != t[l] {
      var f := (m: int) => if m < n then m else if m == n then n + i else if m - n <= i then m - 1 else m;
      assert t[k] == s[f(k)] && t[l] == s[f(l)];
    }
    forall x | x in s ensures x in t {
      var k :| 0 <= k < |s| && s[k] == x;
      assert x == t[if k < n then k else if k == n + i then n else if k < n + i then k + 1 else k];
    }
  }

  lemma {:induction false} DoAllJoin(c: Center<Device, Observer>, a: Ops, b: Ops)
    ensures DoAll(c, a + b) == DoAll(DoAll(c, a), b)
  {
    if b == [] {
      assert a + b == a;
    } else {
      var n := |b| - 1;
      assert (a + b)[..|a + b| - 1] == a + b[..n] && (a + b)[|a + b| - 1] == b[n];
      DoAllJoin(c, a, b[..n]);
    }
  }

  lemma AttachesJoin(c: Center<Device, Observer>, a: seq<Device>, b: seq<Device>)
    ensures DoAll(c, Attaches(a + b)) == DoAll(DoAll(c, Attaches(a)), Attaches(b))
  {
    assert Attaches(a + b) == Attaches(a) + Attaches(b);
    DoAllJoin(c, Attaches(a), Attaches(b));
  }

  lemma AttachesExtend(c: Center<Device, Observer>, before: seq<Device>, x: Device)
    ensures DoAll(c, Attaches(before + [x])) == Attach(DoAll(c, Attaches(before)), x)
  {
    assert Attaches(before + [x]) == Attaches(before) + [OpAttach(x)];
    assert (Attaches(before) + [OpAttach(x)])[..|before|] == Attaches(before);
  }

  lemma DetachesExtend(c: Center<Device, Observer>, before: seq<Device>, x: Device)
    ensures DoAll(c, Detaches(before + [x])) == Detach(DoAll(c, Detaches(before)), x)
  {
    assert Detaches(before + [x]) == Detaches(before) + [OpDetach(x)];
    assert (Detaches(before) + [OpDetach(x)])[..|before|] == Detaches(before);
  }

  lemma DetachesOneMore(c: Center<Device, Observer>, left: seq<Device>, k: nat)
    requires k < |left|
    ensures DoAll(c, Detaches(left[..k + 1])) == Detach(DoAll(c, Detaches(left[..k])), left[k])
    ensures left[k..] == [left[k]] + left[k + 1..]
  {
    DetachesExtend(c, left[..k], left[k]);
    assert left[..k + 1] == left[..k] + [left[k]];
  }

  lemma LeftIsListed(listed: seq<Device>, ids: seq<string>)
    ensures forall d | d in Match(listed, ids, IdOf).left :: d in listed
    ensures forall o | o in Match(listed, ids, IdOf).taken && o.Some? :: o.value in listed
  {
    MatchConserves(listed, ids, IdOf);
    var m := Match(listed, ids, IdOf);
    forall d | d in m.left ensures d in listed { assert d in multiset(listed); }
    ReusedAreTaken(m.taken);
    forall d | d in Reused(m.taken) ensures d in listed { assert d in multiset(listed); }
  }

  lemma {:induction false} ReusedAreTaken(taken: seq<Option<Device>>)
    ensures forall o | o in taken && o.Some? :: o.value in Reused(taken)
  {
    if taken == [] {
    } else {
      ReusedAreTaken(taken[..|taken| - 1]);
    }
  }

  class AdbDeviceMon {
    const center: DeviceCenter
    var list: seq<Device>

    /** Both lists hold the same objects, each once, and a reference for each list. */
    ghost predicate Valid()
      reads this, center, list
    {
      SameSet(list, center.devices) && AllHeld(list)
    }

    ghost predicate Held(d: Device)
      reads d
    {
      !d.deleted && d.refCnt >= 2
    }

    constructor (center: DeviceCenter)
      requires center.devices == []
      ensures Valid() && list == [] && this.center == center
    {
      this.center := center;
      list := [];
    }

    /** A listed device was found, or a new one is attached; the attach always succeeds. */
    method Obtain(id: string, left: seq<Device>) returns (d: Device, left': seq<Device>)
      requires SameSet(list + left, center.devices)
      modifies center
      ensures var i := Find(left, IdOf, id);
        if i < |left| then
          d == left[i] && left' == Without(left, i) && center.State() == old(center.State())
        else
          fresh(d) && d.refCnt == 2 && !d.deleted && left' == left
          && center.State() == Attach(old(center.State()), d)
      ensures d.it == id && SameSet(list + [d] + left', center.devices)
    {
      var itr := FindFirst(left, IdOf, id);
      if itr == |left| {
        d := new PObject(id);
        var r := center.OnDeviceAttached(d);
        assert r == Success;
        left' := left;
        SameAfterAdd(list, left, old(center.devices), d);
      } else {
        d := left[itr];
        left' := Without(left, itr);
        SameAfterMove(list, left, itr, center.devices);
      }
    }

    /** The detaching loop of ProcessDevices and Unload; every detach succeeds. */
    method DetachAll(left: seq<Device>)
      requires SameSet(list + left, center.devices) && AllHeld(left)
      modifies center, Elements(left)
      ensures SameSet(list, center.devices)
      ensures center.State() == DoAll(old(center.State()), Detaches(left))
      ensures Dropped(left)
    {
      var k := 0;
      assert left[..0] == [] && left[0..] == left;
      NoDupSplit(list, left);
      while k < |left|
        invariant k <= |left| && SameSet(list + left[k..], center.devices)
        invariant center.State() == DoAll(old(center.State()), Detaches(left[..k]))
        invariant Dropped(left[..k])
        invariant forall j | k <= j < |left| :: left[j].refCnt == old(left[j].refCnt) && Held(left[j])
      {
        DetachNext(left, k, old(center.State()));
        assert left[..k + 1] == left[..k] + [left[k]];
        k := k + 1;
      }
      assert left[..k] == left && list + left[k..] == list;
    }

    method DetachNext(left: seq<Device>, k: nat, ghost before: Center<Device, Observer>)
      requires k < |left| && SameSet(list + left[k..], center.devices) && Held(left[k])
      requires center.State() == DoAll(before, Detaches(left[..k]))
      modifies center, left[k]
      ensures SameSet(list + left[k + 1..], center.devices)
      ensures center.State() == DoAll(before, Detaches(left[..k + 1]))
      ensures left[k].refCnt == old(left[k].refCnt) - 2 && (left[k].deleted <==> left[k].refCnt == 0)
    {
      DetachesOneMore(before, left, k);
      assert list + left[k..] == list + [left[k]] + left[k + 1..];
      DetachOne(left[k], left[k + 1..]);
    }

    ghost predicate AllHeld(devs: seq<Device>)
      reads Elements(devs)
    {
      forall d | d in devs :: Held(d)
    }

    twostate predicate Dropped(devs: seq<Device>)
      reads Elements(devs)
    {
      forall d | d in devs :: d.refCnt == old(d.refCnt) - 2 && (d.deleted <==> d.refCnt == 0)
    }

    method DetachOne(d: Device, ghost rest: seq<Device>)
      requires SameSet(list + [d] + rest, center.devices) && Held(d)
      modifies center, d
      ensures SameSet(list + rest, center.devices) && center.State() == Detach(old(center.State()), d)
      ensures d.refCnt == old(d.refCnt) - 2 && (d.deleted <==> d.refCnt == 0)
    {
      SameAfterRemove(list, d, rest, center.devices);
      var r := center.OnDeviceDetached(d);
      assert r == Success;
      var _ := d.Release();
    }

    method Unload()
      requires Valid()
      modifies this`list, center, Elements(list)
      ensures Valid() && list == []
      ensures center.State() == DoAll(old(center.State()), Detaches(old(list)))
      ensures forall d | d in old(list) :: d.refCnt == old(d.refCnt) - 2 && (d.deleted <==> d.refCnt == 0)
    {
      var left := list;
      list := [];
      assert list + left == left;
      DetachAll(left);
    }

    ghost predicate Placed(taken: seq<Option<Device>>)
      reads this
    {
      |taken| == |list| && forall i | 0 <= i < |list| && taken[i].Some? :: list[i] == taken[i].value
    }

    /** One enumerated id; `made` is the object created for it, if any. */
    method PlaceOne(id: string, left: seq<Device>, ghost taken: seq<Option<Device>>)
      returns (left': seq<Device>, ghost m: Matched<Device>, ghost made: seq<Device>)
      requires SameSet(list + left, center.devices) && Placed(taken)
      modifies this`list, center
      ensures m == Take(Matched(taken, left), IdOf, id) && left' == m.left
      ensures SameSet(list + left', center.devices) && Placed(m.taken)
      ensures Ids(list) == old(Ids(list)) + [id]
      ensures Missing(m.taken, list) == Missing(taken, old(list)) + made
      ensures center.State() == DoAll(old(center.State()), Attaches(made))
      ensures forall d | d in made :: fresh(d) && d.refCnt == 2 && !d.deleted
    {
      var d;
      d, left' := Obtain(id, left);
      list := list + [d];
      m := Take(Matched(taken, left), IdOf, id);
      made := if m.taken[|taken|].None? then [d] else [];
      assert list + left' == old(list) + [d] + left';
      assert list[..|taken|] == old(list) && m.taken[..|taken|] == taken;
    }

    /** What the enumeration loop has done after the ids seen so far. */
    ghost predicate Progress(was: seq<Device>, before: Center<Device, Observer>, ids: seq<string>,
                             left: seq<Device>, news: seq<Device>)
      reads this, center
    {
      var m := Match(was, ids, IdOf);
      && left == m.left && SameSet(list + left, center.devices) && Placed(m.taken) && Ids(list) == ids
      && news == Missing(m.taken, list) && center.State() == DoAll(before, Attaches(news))
    }

    method PlaceNext(ids: seq<string>, i: nat, left: seq<Device>, ghost was: seq<Device>,
                     ghost before: Center<Device, Observer>, ghost news: seq<Device>)
      returns (left': seq<Device>, ghost made: seq<Device>)
      requires i < |ids| && Progress(was, before, ids[..i], left, news)
      modifies this`list, center
      ensures Progress(was, before, ids[..i + 1], left', news + made)
      ensures forall d | d in made :: fresh(d) && d.refCnt == 2 && !d.deleted
    {
      ghost var m;
      PrefixGrows(ids, i);
      left', m, made := PlaceOne(ids[i], left, Match(was, ids[..i], IdOf).taken);
      AttachesJoin(before, news, made);
      assert m == Match(was, ids[..i + 1], IdOf);
    }

    /** The enumeration loop; what is left over has disappeared. */
    method PlaceAll(ids: seq<string>) returns (left: seq<Device>, ghost news: seq<Device>)
      requires SameSet(list, center.devices)
      modifies this`list, center
      ensures Progress(old(list), old(center.State()), ids, left, news)
      ensures forall d | d in news :: fresh(d) && d.refCnt == 2 && !d.deleted
    {
      left := list;
      list := [];
      news := [];
      var i := 0;
      assert list + left == left;
      while i < |ids|
        invariant i <= |ids| && Progress(old(list), old(center.State()), ids[..i], left, news)
        invariant forall d | d in news :: fresh(d) && d.refCnt == 2 && !d.deleted
      {
        ghost var made;
        left, made := PlaceNext(ids, i, left, old(list), old(center.State()), news);
        news := news + made;
        i := i + 1;
      }
      assert ids[..i] == ids;
    }

    /** The enumeration loop, and where the objects of both lists are afterwards. */
    method Rebuild(ids: seq<string>) returns (left: seq<Device>, ghost news: seq<Device>)
      requires Valid()
      modifies this`list, center
      ensures Progress(old(list), old(center.State()), ids, left, news)
      ensures forall d | d in news :: fresh(d) && d.refCnt == 2 && !d.deleted
      ensures Elements(left) <= Elements(old(list)) && Elements(list) <= Elements(old(list)) + Elements(news)
      ensures Elements(list) !! Elements(left) && AllHeld(list) && AllHeld(left)
    {
      ghost var was := list;
      left, news := PlaceAll(ids);
      WhereFrom(was, ids, list);
      assert AllHeld(was);
      assert AllHeld(left) by {
        assert forall d | d in left :: d in Elements(left);
      }
      assert AllHeld(list) by {
        assert forall d | d in list :: d in Elements(list);
      }
    }

    /** Kept objects keep their references, new ones start with one for each list, leftover ones lose both;
        DeviceCenter is called once for each new and each leftover object. */
    method ProcessDevices(ids: seq<string>)
      requires Valid()
      modifies this`list, center, Elements(list)
      ensures Valid() && Ids(list) == ids
      ensures var m := Match(old(list), ids, IdOf);
        && Placed(m.taken)
        && (forall d | d in Missing(m.taken, list) :: fresh(d) && d.refCnt == 2 && !d.deleted)
        && (forall d | d in old(list) ::
              d.refCnt == old(d.refCnt) - (if d in m.left then 2 else 0) && (d.deleted <==> d.refCnt == 0))
        && center.State() == DoAll(old(center.State()), Calls(m, list))
    {
      var left;
      ghost var news;
      left, news := Rebuild(ids);
      DetachAll(left);
      assert center.State() == DoAll(old(center.State()), Calls(Match(old(list), ids, IdOf), list)) by {
        DoAllJoin(old(center.State()), Attaches(news), Detaches(left));
      }
      assert AllHeld(list) by {
        assert forall d | d in list :: d in Elements(list);
      }
    }
  }

  /** What is left over was listed before; what is listed now was, too, or is new, and is not left over. */
  lemma WhereFrom(was: seq<Device>, ids: seq<string>, list: seq<Device>)
    requires var m := Match(was, ids, IdOf);
      && |list| == |ids| && (forall i | 0 <= i < |list| && m.taken[i].Some? :: list[i] == m.taken[i].value)
      && NoDup(list + m.left)
    ensures var m := Match(was, ids, IdOf);
      && Elements(m.left) <= Elements(was)
      && Elements(list) <= Elements(was) + Elements(Missing(m.taken, list)) && Elements(list) !! Elements(m.left)
  {
    LeftIsListed(was, ids);
    PlacedOrMade(Match(was, ids, IdOf).taken, list);
    NoDupSplit(list, Match(was, ids, IdOf).left);
  }

  lemma {:induction false} PlacedOrMade(taken: seq<Option<Device>>, list: seq<Device>)
    requires |taken| == |list|
    ensures forall i | 0 <= i < |list| && taken[i].None? :: list[i] in Missing(taken, list)
  {
    if taken == [] {
    } else {
      PlacedOrMade(taken[..|taken| - 1], list[..|taken| - 1]);
    }
  }

  function Ids(devs: seq<Device>): seq<string> { seq(|devs|, i requires 0 <= i < |devs| => devs[i].it) }

  lemma {:induction false} MadeIds(taken: seq<Option<Device>>, list: seq<Device>, x: string)
    requires |taken| == |list|
    ensures Count(Missing(taken, list), IdOf, x) == Count(Missing(taken, Ids(list)), Itself, x)
  {
    if taken == [] {
    } else {
      var n := |taken| - 1;
      var devs, ids := Missing(taken[..n], list[..n]), Missing(taken[..n], Ids(list[..n]));
      MadeIds(taken[..n], list[..n], x);
      assert Ids(list)[..n] == Ids(list[..n]) && Ids(list)[n] == list[n].it;
      if taken[n].None? {
        CountSplit(devs, [list[n]], IdOf, x);
        CountSplit(ids, [list[n].it], Itself, x);
        assert Missing(taken, list) == devs + [list[n]];
        assert Missing(taken, Ids(list)) == ids + [list[n].it];
      } else {
        assert Missing(taken, list) == devs;
        assert Missing(taken, Ids(list)) == ids;
      }
    }
  }

  /** For every id: the objects attached are new minus old, the objects detached old minus new, and as many
      are reused as the two lists have in common. */
  lemma CallsAreTheDifference(listed: seq<Device>, ids: seq<string>, list: seq<Device>, x: string)
    requires Ids(list) == ids
    ensures var m := Match(listed, ids, IdOf);
      var had, now := Count(listed, IdOf, x), Count(ids, Itself, x);
      && Count(Missing(m.taken, list), IdOf, x) == Max(0, now - had)
      && Count(m.left, IdOf, x) == Max(0, had - now)
      && Count(Reused(m.taken), IdOf, x) == Min(had, now)
  {
    var m := Match(listed, ids, IdOf);
    MatchCounts(listed, ids, IdOf, x);
    assert Count(Missing(m.taken, ids), Itself, x) == Max(0, Count(ids, Itself, x) - Count(listed, IdOf, x));
    MadeIds(m.taken, list, x);
    assert Count(Missing(m.taken, list), IdOf, x) == Count(Missing(m.taken, ids), Itself, x);
  }

  // ---------------------------------------------------------------- what observers are told of it

  type Events = seq<Event<Device>>

  function AllAttached(devs: seq<Device>): Events { seq(|devs|, i requires 0 <= i < |devs| => Attached(devs[i])) }

  function AllDetached(devs: seq<Device>): Events { seq(|devs|, i requires 0 <= i < |devs| => Detached(devs[i])) }

  /** From `c` to `t` the observer was told `events`, and nobody came or went. */
  ghost predicate WasTold(c: Center<Device, Observer>, t: Center<Device, Observer>, o: Observer, events: Events) {
    t.observers == c.observers && Since(t.log, o) == Since(c.log, o) + events
  }

  lemma ToldOneMore(c: Center<Device, Observer>, b: Center<Device, Observer>, o: Observer, events: Events,
                    t: Center<Device, Observer>, e: Event<Device>)
    requires NoDup(c.observers) && o in c.observers && WasTold(c, b, o, events)
    requires t.observers == b.observers && t.log == b.log + TellAll(b.observers, e)
    ensures WasTold(c, t, o, events + [e])
  {
    SinceTellAll(b.log, b.observers, e, o);
  }

  lemma {:induction false} AttachesAreTold(c: Center<Device, Observer>, news: seq<Device>, o: Observer)
    requires NoDup(c.observers) && o in c.observers && NoDup(c.devices + news)
    ensures var t := DoAll(c, Attaches(news)); t.devices == c.devices + news && WasTold(c, t, o, AllAttached(news))
  {
    if news == [] {
      assert c.devices + news == c.devices;
    } else {
      var n := |news| - 1;
      var before, x := news[..n], news[n];
      assert news == before + [x] && c.devices + news == (c.devices + before) + [x];
      NoDupFront(c.devices + before, x);
      AttachesAreTold(c, before, o);
      AttachesExtend(c, before, x);
      assert AllAttached(news) == AllAttached(before) + [Attached(x)];
      ToldOneMore(c, DoAll(c, Attaches(before)), o, AllAttached(before), DoAll(c, Attaches(news)), Attached(x));
    }
  }

  lemma NoDupFront<T>(s: seq<T>, x: T)
    requires NoDup(s + [x])
    ensures NoDup(s) && x !in s
  {
    var t := s + [x];
    assert forall i | 0 <= i < |s| :: s[i] == t[i];
    assert t[|s|] == x;
  }

  lemma {:induction false} DetachesAreTold(c: Center<Device, Observer>, left: seq<Device>, o: Observer)
    requires NoDup(c.observers) && o in c.observers && NoDup(c.devices) && NoDup(left)
    requires forall d | d in left :: d in c.devices
    ensures var t := DoAll(c, Detaches(left));
      && WasTold(c, t, o, AllDetached(left))
      && NoDup(t.devices) && (forall d :: d in t.devices <==> d in c.devices && d !in left)
  {
    if left == [] {
    } else {
      var n := |left| - 1;
      var before, x := left[..n], left[n];
      assert left == before + [x];
      NoDupFront(before, x);
      DetachesAreTold(c, before, o);
      var b := DoAll(c, Detaches(before));
      DetachesExtend(c, before, x);
      assert AllDetached(left) == AllDetached(before) + [Detached(x)];
      ToldOneMore(c, b, o, AllDetached(before), Detach(b, x), Detached(x));
      NoDupWithout(b.devices, IndexOf(b.devices, x));
    }
  }

  /** What one reconciliation tells every observer is exactly the difference: the new objects in the order of the
      enumeration, then the ones that disappeared. */
  lemma ObserversAreToldTheDifference(c: Center<Device, Observer>, m: Matched<Device>, list: seq<Device>, o: Observer)
    requires |list| == |m.taken| && CenterInv(c) && o in c.observers
    requires NoDup(c.devices + Missing(m.taken, list)) && NoDup(m.left) && forall d | d in m.left :: d in c.devices
    ensures WasTold(c, DoAll(c, Calls(m, list)), o, AllAttached(Missing(m.taken, list)) + AllDetached(m.left))
  {
    var news := Missing(m.taken, list);
    DoAllJoin(c, Attaches(news), Detaches(m.left));
    AttachesAreTold(c, news, o);
    DetachesAreTold(DoAll(c, Attaches(news)), m.left, o);
    Associative(Since(c.log, o), AllAttached(news), AllDetached(m.left));
  }
}
