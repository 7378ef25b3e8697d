/** jni/libdevmgr/dev/MtpDeviceMon.cpp: MTP records handed out by reference count. */
module MtpDeviceMon {
  import opened Basics
  import opened Reconcile
  import opened Sums

  // A monitor thread reconciles the list with what is plugged in. Each step below is one region under
  // `_DeviceLock`, or the opening of the new records between two of them.

  /** What `IsEqual` compares. */
  datatype Raw = Raw(bus: nat, devnum: nat)

  datatype Found = Found(raw: Raw, id: string)

  /** `num` tells records apart; handle 0 is NULL. */
  datatype Rec = Rec(num: nat, id: string, raw: Raw, handle: nat, refCnt: nat, remove: bool)

  /** Where the monitor thread is: outside ProcessDevices, or holding new records before or after opening them. */
  datatype Phase = Idle | Created | Opened

  /** `added` is NewList; `out` are the handles callers have and must release; `freed` and `born` are history. */
  datatype Mtp = Mtp(list: seq<Rec>, added: seq<Rec>, phase: Phase, out: multiset<nat>, freed: seq<Rec>, born: nat)

  const EMPTY := Mtp([], [], Idle, multiset{}, [], 0)

  // ---------------------------------------------------------------- the steps

  function IdOf(r: Rec): string { r.id }

  function RawOf(r: Rec): Raw { r.raw }

  function HandleOf(r: Rec): nat { r.handle }

  function Get(s: Mtp, id: string): (Mtp, Option<nat>) {
    var i := Find(s.list, IdOf, id);
    if i == |s.list| then (s, None)
    else
      var r := s.list[i];
      (s.(list := s.list[i := r.(refCnt := r.refCnt + 1)], out := s.out + multiset{r.handle}), Some(r.handle))
  }

  function Release(s: Mtp, h: nat): Mtp {
    var i := Find(s.list, HandleOf, h);
    if i == |s.list| || s.list[i].refCnt == 0 then s
    else
      var r := s.list[i].(refCnt := s.list[i].refCnt - 1);
      var t := s.(out := s.out - multiset{h});
      if r.remove && r.refCnt == 0 then t.(list := Without(s.list, i), freed := s.freed + [r])
      else t.(list := s.list[i := r])
  }

  /** Vanished records still in use stay, marked. */
  function Kept(left: seq<Rec>): seq<Rec> {
    if left == [] then []
    else
      var before, last := Kept(left[..|left| - 1]), left[|left| - 1];
      if last.refCnt > 0 then before + [last.(remove := true)] else before
  }

  function Dead(left: seq<Rec>): seq<Rec> {
    if left == [] then []
    else
      var before, last := Dead(left[..|left| - 1]), left[|left| - 1];
      if last.refCnt > 0 then before else before + [last]
  }

  function Create(found: seq<Found>, born: nat): seq<Rec> {
    seq(|found|, i requires 0 <= i < |found| => Rec(born + i, found[i].id, found[i].raw, 0, 0, false))
  }

  function Raws(found: seq<Found>): seq<Raw> {
    seq(|found|, i requires 0 <= i < |found| => found[i].raw)
  }

  /** First region of ProcessDevices. */
  function Begin(s: Mtp, found: seq<Found>): Mtp {
    var m := Match(s.list, Raws(found), RawOf);
    var recs := Create(Missing(m.taken, found), s.born);
    Mtp(Reused(m.taken) + Kept(m.left), recs, Created, s.out, s.freed + Dead(m.left), s.born + |recs|)
  }

  /** InitRec on every new record; `handles` is what opening gave, 0 where it failed. */
  function Open(s: Mtp, handles: seq<nat>): Mtp
    requires |handles| == |s.added|
  {
    s.(added := Good(s.added, handles), freed := s.freed + Bad(s.added, handles), phase := Opened)
  }

  function Good(added: seq<Rec>, handles: seq<nat>): seq<Rec>
    requires |handles| == |added|
  {
    if added == [] then []
    else
      var n := |added| - 1;
      var before := Good(added[..n], handles[..n]);
      if handles[n] == 0 then before else before + [added[n].(handle := handles[n])]
  }

  function Bad(added: seq<Rec>, handles: seq<nat>): seq<Rec>
    requires |handles| == |added|
  {
    if added == [] then []
    else
      var n := |added| - 1;
      var before := Bad(added[..n], handles[..n]);
      if handles[n] == 0 then before + [added[n]] else before
  }

  /** Last region of ProcessDevices. */
  function Join(s: Mtp): Mtp { s.(list := s.list + s.added, added := [], phase := Idle) }

  datatype Step = SGet(id: string) | SRelease(h: nat) | SBegin(found: seq<Found>) | SOpen(handles: seq<nat>) | SJoin

  /** Callers release what they got; the library never returns a handle that is still open. */
  ghost predicate Legal(s: Mtp, step: Step) {
    match step
    case SGet(_) => true
    case SRelease(h) => h in s.out
    case SBegin(_) => s.phase == Idle
    case SOpen(handles) => s.phase == Created && |handles| == |s.added| && NewHandles(handles, s.list)
    case SJoin => s.phase == Opened
  }

  ghost predicate NewHandles(handles: seq<nat>, list: seq<Rec>) {
    && (forall i, j | 0 <= i < j < |handles| && handles[i] == handles[j] :: handles[i] == 0)
    && forall i | 0 <= i < |handles| && handles[i] != 0 :: Total(list, HandleIs(handles[i])) == 0
  }

  function Do(s: Mtp, step: Step): Mtp
    requires Legal(s, step)
  {
    match step
    case SGet(id) => Get(s, id).0
    case SRelease(h) => Release(s, h)
    case SBegin(found) => Begin(s, found)
    case SOpen(handles) => Open(s, handles)
    case SJoin => Join(s)
  }

  // ---------------------------------------------------------------- the invariant

  function NumIs(n: nat): Rec -> nat { (r: Rec) => if r.num == n then 1 else 0 }

  function HandleIs(h: nat): Rec -> nat { (r: Rec) => if r.handle == h then 1 else 0 }

  function RefsAt(h: nat): Rec -> nat { (r: Rec) => if r.handle == h then r.refCnt else 0 }

  /** Every record ever created is in exactly one place: listed, new, or freed once. */
  ghost predicate Conserved(s: Mtp) {
    forall n: nat ::
      Total(s.list, NumIs(n)) + Total(s.added, NumIs(n)) + Total(s.freed, NumIs(n)) == if n < s.born then 1 else 0
  }

  /** An open handle belongs to one record. */
  ghost predicate OneOwner(s: Mtp) {
    forall h: nat | h != 0 :: Total(s.list, HandleIs(h)) + Total(s.added, HandleIs(h)) <= 1
  }

  /** The reference counts are exactly the handles outside. */
  ghost predicate Counted(s: Mtp) {
    forall h: nat :: s.out[h] == Total(s.list, RefsAt(h))
  }

  ghost predicate ListOk(list: seq<Rec>) {
    forall r | r in list :: r.handle != 0 && (r.remove ==> r.refCnt > 0)
  }

  ghost predicate AddedOk(added: seq<Rec>, phase: Phase) {
    && (phase == Idle ==> added == [])
    && forall r | r in added :: r.refCnt == 0 && !r.remove && (r.handle == 0 <==> phase == Created)
  }

  ghost predicate Inv(s: Mtp) {
    Conserved(s) && OneOwner(s) && Counted(s) && ListOk(s.list) && AddedOk(s.added, s.phase)
  }

  // ---------------------------------------------------------------- sums over the parts

  lemma {:induction false} FindByHandle(list: seq<Rec>, h: nat)
    requires Total(list, RefsAt(h)) > 0 || Total(list, HandleIs(h)) > 0
    ensures Find(list, HandleOf, h) < |list|
  {
    if list[0].handle == h {
    } else {
      FindByHandle(list[1..], h);
    }
  }

  lemma {:induction false} OthersHaveNone(list: seq<Rec>, h: nat)
    requires Total(list, HandleIs(h)) == 0
    ensures Total(list, RefsAt(h)) == 0 && forall r | r in list :: r.handle != h
  {
    if list == [] {
    } else {
      OthersHaveNone(list[1..], h);
    }
  }

  /** Marking does not change what is counted. */
  ghost predicate FlagBlind(f: Rec -> nat) { forall r: Rec :: f(r.(remove := true)) == f(r) }

  lemma {:induction false} KeptOrDead(left: seq<Rec>, f: Rec -> nat)
    requires FlagBlind(f)
    ensures Total(left, f) == Total(Kept(left), f) + Total(Dead(left), f)
  {
    if left == [] {
    } else {
      var n := |left| - 1;
      var last := left[n];
      var marked := last.(remove := true);
      KeptOrDead(left[..n], f);
      assert left == left[..n] + [last] && f(marked) == f(last);
      TotalLast(left[..n], last, f);
      TotalLast(Kept(left[..n]), marked, f);
      TotalLast(Dead(left[..n]), last, f);
    }
  }

  lemma {:induction false} DeadHaveNoRefs(left: seq<Rec>, h: nat)
    ensures Total(Dead(left), RefsAt(h)) == 0
    ensures forall r | r in Dead(left) :: r in left && r.refCnt == 0
  {
    if left == [] {
    } else {
      var n := |left| - 1;
      DeadHaveNoRefs(left[..n], h);
      TotalLast(Dead(left[..n]), left[n], RefsAt(h));
    }
  }

  lemma {:induction false} KeptAreInUse(left: seq<Rec>)
    requires ListOk(left)
    ensures ListOk(Kept(left))
  {
    if left == [] {
    } else {
      KeptAreInUse(left[..|left| - 1]);
    }
  }

  lemma {:induction false} GoodOrBad(added: seq<Rec>, handles: seq<nat>, n: nat)
    requires |handles| == |added|
    ensures Total(added, NumIs(n)) == Total(Good(added, handles), NumIs(n)) + Total(Bad(added, handles), NumIs(n))
  {
    if added == [] {
    } else {
      var k := |added| - 1;
      var last := added[k];
      GoodOrBad(added[..k], handles[..k], n);
      assert added == added[..k] + [last];
      TotalLast(added[..k], last, NumIs(n));
      TotalLast(Good(added[..k], handles[..k]), last.(handle := handles[k]), NumIs(n));
      TotalLast(Bad(added[..k], handles[..k]), last, NumIs(n));
    }
  }

  lemma {:induction false} GoodHandles(added: seq<Rec>, handles: seq<nat>, h: nat)
    requires |handles| == |added| && h != 0
    requires forall i, j | 0 <= i < j < |handles| && handles[i] == handles[j] :: handles[i] == 0
    ensures Total(Good(added, handles), HandleIs(h)) == if h in handles then 1 else 0
  {
    if added == [] {
    } else {
      var k := |added| - 1;
      GoodHandles(added[..k], handles[..k], h);
      TotalLast(Good(added[..k], handles[..k]), added[k].(handle := handles[k]), HandleIs(h));
      assert handles == handles[..k] + [handles[k]];
    }
  }

  lemma {:induction false} GoodAreNew(added: seq<Rec>, handles: seq<nat>)
    requires |handles| == |added| && AddedOk(added, Created)
    ensures AddedOk(Good(added, handles), Opened)
  {
    if added == [] {
    } else {
      GoodAreNew(added[..|added| - 1], handles[..|added| - 1]);
    }
  }

  // ---------------------------------------------------------------- every step keeps the invariant

  /** A handle outside belongs to exactly one listed record, whose count is the number of handles outside. */
  lemma TheRecordOf(s: Mtp, h: nat)
    requires Inv(s) && h in s.out
    ensures var i := Find(s.list, HandleOf, h); i < |s.list| && s.list[i].refCnt == s.out[h] > 0
  {
    FindByHandle(s.list, h);
    var i := Find(s.list, HandleOf, h);
    assert s.list[i] in s.list;
    TotalWithout(s.list, i, HandleIs(h));
    OthersHaveNone(Without(s.list, i), h);
    TotalWithout(s.list, i, RefsAt(h));
  }

  /** The other way round: a listed record is the one found for its handle. */
  lemma TheHandleOf(s: Mtp, r: Rec)
    requires Inv(s) && r in s.list
    ensures var i := Find(s.list, HandleOf, r.handle); i < |s.list| && s.list[i] == r
    ensures s.out[r.handle] == r.refCnt
  {
    var h := r.handle;
    Counts(s.list, r);
    FindByHandle(s.list, h);
    var i := Find(s.list, HandleOf, h);
    TotalWithout(s.list, i, HandleIs(h));
    OthersHaveNone(Without(s.list, i), h);
    TotalWithout(s.list, i, RefsAt(h));
    WithoutMembers(s.list, i);
  }

  lemma {:induction false} Counts(list: seq<Rec>, r: Rec)
    requires r in list
    ensures Total(list, HandleIs(r.handle)) > 0 && Total(list, NumIs(r.num)) > 0
  {
    if list[0] == r {
    } else {
      Counts(list[1..], r);
    }
  }

  lemma KeepGet(s: Mtp, id: string)
    requires Inv(s)
    ensures Inv(Get(s, id).0)
  {
    var i := Find(s.list, IdOf, id);
    if i < |s.list| {
      var t := Get(s, id).0;
      var r := t.list[i];
      forall n: nat ensures Total(t.list, NumIs(n)) == Total(s.list, NumIs(n)) {
        TotalUpdate(s.list, i, r, NumIs(n));
      }
      forall h: nat ensures Total(t.list, HandleIs(h)) == Total(s.list, HandleIs(h)) {
        TotalUpdate(s.list, i, r, HandleIs(h));
      }
      forall h: nat ensures t.out[h] == Total(t.list, RefsAt(h)) {
        TotalUpdate(s.list, i, r, RefsAt(h));
      }
    }
  }

  lemma ReleaseTotal(s: Mtp, i: nat, r: Rec, away: bool, f: Rec -> nat)
    requires i < |s.list|
    ensures Total(if away then Without(s.list, i) else s.list[i := r], f)
         == Total(s.list, f) - f(s.list[i]) + if away then 0 else f(r)
  {
    TotalUpdate(s.list, i, r, f);
    TotalWithout(s.list, i, f);
  }

  /** The record whose handle came back, counted down, and whether it goes. */
  ghost predicate Released(s: Mtp, h: nat, i: nat, r: Rec, away: bool) {
    && i < |s.list| && i == Find(s.list, HandleOf, h) && s.list[i].refCnt > 0
    && r == s.list[i].(refCnt := s.list[i].refCnt - 1) && (away <==> r.remove && r.refCnt == 0)
  }

  lemma ReleaseConserves(s: Mtp, h: nat, i: nat, r: Rec, away: bool)
    requires Released(s, h, i, r, away) && Conserved(s) && OneOwner(s)
    ensures Conserved(Release(s, h)) && OneOwner(Release(s, h))
  {
    var t := Release(s, h);
    forall n: nat
      ensures Total(t.list, NumIs(n)) + Total(t.freed, NumIs(n))
           == Total(s.list, NumIs(n)) + Total(s.freed, NumIs(n))
    {
      ReleaseTotal(s, i, r, away, NumIs(n));
      TotalLast(s.freed, r, NumIs(n));
    }
    forall g: nat ensures Total(t.list, HandleIs(g)) <= Total(s.list, HandleIs(g)) {
      ReleaseTotal(s, i, r, away, HandleIs(g));
    }
  }

  lemma ReleaseCounts(s: Mtp, h: nat, i: nat, r: Rec, away: bool)
    requires Released(s, h, i, r, away) && Counted(s) && h in s.out
    ensures Counted(Release(s, h))
  {
    var t := Release(s, h);
    forall g: nat ensures t.out[g] == Total(t.list, RefsAt(g)) {
      ReleaseTotal(s, i, r, away, RefsAt(g));
    }
  }

  lemma ReleaseListOk(s: Mtp, h: nat, i: nat, r: Rec, away: bool)
    requires Released(s, h, i, r, away) && ListOk(s.list)
    ensures ListOk(Release(s, h).list)
  {
    assert s.list[i] in s.list;
    WithoutMembers(s.list, i);
    assert forall q | q in s.list[i := r] :: q in s.list || q == r;
  }

  lemma KeepRelease(s: Mtp, h: nat)
    requires Inv(s) && h in s.out
    ensures Inv(Release(s, h))
  {
    TheRecordOf(s, h);
    var i := Find(s.list, HandleOf, h);
    var r := s.list[i].(refCnt := s.list[i].refCnt - 1);
    var away := r.remove && r.refCnt == 0;
    ReleaseConserves(s, h, i, r, away);
    ReleaseCounts(s, h, i, r, away);
    ReleaseListOk(s, h, i, r, away);
  }

  lemma {:induction false} CreateNums(found: seq<Found>, born: nat, n: nat)
    ensures Total(Create(found, born), NumIs(n)) == if born <= n < born + |found| then 1 else 0
  {
    if found == [] {
    } else {
      var k := |found| - 1;
      CreateNums(found[..k], born, n);
      TotalLast(Create(found[..k], born), Create(found, born)[k], NumIs(n));
      assert Create(found, born) == Create(found[..k], born) + [Create(found, born)[k]];
    }
  }

  lemma {:induction false} NoHandleYet(added: seq<Rec>, h: nat)
    requires h != 0 && forall r | r in added :: r.handle == 0
    ensures Total(added, HandleIs(h)) == 0
  {
    if added == [] {
    } else {
      NoHandleYet(added[1..], h);
    }
  }

  /** What the first region of ProcessDevices keeps and frees, for any flag-blind sum. */
  lemma BeginTotals(s: Mtp, found: seq<Found>, f: Rec -> nat)
    requires FlagBlind(f)
    ensures var m := Match(s.list, Raws(found), RawOf);
      Total(s.list, f) == Total(Begin(s, found).list, f) + Total(Dead(m.left), f)
  {
    var m := Match(s.list, Raws(found), RawOf);
    MatchTotals(s.list, Raws(found), RawOf, f);
    KeptOrDead(m.left, f);
    TotalSplit(Reused(m.taken), Kept(m.left), f);
  }

  lemma BeginListOk(s: Mtp, found: seq<Found>)
    requires ListOk(s.list)
    ensures ListOk(Begin(s, found).list)
  {
    var m := Match(s.list, Raws(found), RawOf);
    MatchConserves(s.list, Raws(found), RawOf);
    assert forall r | r in m.left :: r in multiset(s.list);
    assert forall r | r in Reused(m.taken) :: r in multiset(s.list);
    KeptAreInUse(m.left);
  }

  lemma KeepBegin(s: Mtp, found: seq<Found>)
    requires Inv(s) && s.phase == Idle
    ensures Inv(Begin(s, found))
  {
    var t := Begin(s, found);
    var m := Match(s.list, Raws(found), RawOf);
    forall n: nat
      ensures Total(t.list, NumIs(n)) + Total(t.added, NumIs(n)) + Total(t.freed, NumIs(n))
           == if n < t.born then 1 else 0
    {
      BeginTotals(s, found, NumIs(n));
      TotalSplit(s.freed, Dead(m.left), NumIs(n));
      CreateNums(Missing(m.taken, found), s.born, n);
    }
    forall h: nat | h != 0 ensures Total(t.list, HandleIs(h)) + Total(t.added, HandleIs(h)) <= 1 {
      BeginTotals(s, found, HandleIs(h));
      NoHandleYet(t.added, h);
    }
    forall h: nat ensures t.out[h] == Total(t.list, RefsAt(h)) {
      BeginTotals(s, found, RefsAt(h));
      DeadHaveNoRefs(m.left, h);
    }
    BeginListOk(s, found);
  }

  lemma KeepOpen(s: Mtp, handles: seq<nat>)
    requires Inv(s) && Legal(s, SOpen(handles))
    ensures Inv(Open(s, handles))
  {
    var t := Open(s, handles);
    forall n: nat
      ensures Total(t.added, NumIs(n)) + Total(t.freed, NumIs(n))
           == Total(s.added, NumIs(n)) + Total(s.freed, NumIs(n))
    {
      GoodOrBad(s.added, handles, n);
      TotalSplit(s.freed, Bad(s.added, handles), NumIs(n));
    }
    forall h: nat | h != 0 ensures Total(t.list, HandleIs(h)) + Total(t.added, HandleIs(h)) <= 1 {
      GoodHandles(s.added, handles, h);
    }
    GoodAreNew(s.added, handles);
  }

  lemma {:induction false} NewHaveNoRefs(added: seq<Rec>, h: nat)
    requires forall r | r in added :: r.refCnt == 0
    ensures Total(added, RefsAt(h)) == 0
  {
    if added == [] {
    } else {
      NewHaveNoRefs(added[1..], h);
    }
  }

  lemma KeepJoin(s: Mtp)
    requires Inv(s) && s.phase == Opened
    ensures Inv(Join(s))
  {
    forall f: Rec -> nat ensures Total(s.list + s.added, f) == Total(s.list, f) + Total(s.added, f) {
      TotalSplit(s.list, s.added, f);
    }
    forall h: nat ensures Total(s.added, RefsAt(h)) == 0 { NewHaveNoRefs(s.added, h); }
  }

  lemma KeepInv(s: Mtp, step: Step)
    requires Inv(s) && Legal(s, step)
    ensures Inv(Do(s, step))
  {
    match step
    case SGet(id) => KeepGet(s, id);
    case SRelease(h) => KeepRelease(s, h);
    case SBegin(found) => KeepBegin(s, found);
    case SOpen(handles) => KeepOpen(s, handles);
    case SJoin => KeepJoin(s);
  }

  ghost predicate IsRun(states: seq<Mtp>, steps: seq<Step>) {
    && |states| == |steps| + 1 && states[0] == EMPTY
    && forall i | 0 <= i < |steps| :: Legal(states[i], steps[i]) && states[i + 1] == Do(states[i], steps[i])
  }

  /** The invariant holds all along a run. */
  lemma {:induction false} RunInv(states: seq<Mtp>, steps: seq<Step>)
    requires IsRun(states, steps)
    ensures forall i | 0 <= i < |states| :: Inv(states[i])
  {
    if steps == [] {
    } else {
      var n := |steps| - 1;
      RunInv(states[..n + 1], steps[..n]);
      assert Inv(states[n]) by { assert states[..n + 1][n] == states[n]; }
      KeepInv(states[n], steps[n]);
      assert forall i | 0 <= i <= n :: states[i] == states[..n + 1][i];
    }
  }

  // ---------------------------------------------------------------- what every run promises

  /** The assertion in ReleaseMtpDevice never fires. */
  lemma ReleaseFindsItsRecord(states: seq<Mtp>, steps: seq<Step>, i: nat, h: nat)
    requires IsRun(states, steps) && i < |states| && h in states[i].out
    ensures var k := Find(states[i].list, HandleOf, h);
      k < |states[i].list| && states[i].list[k].refCnt == states[i].out[h]
  {
    RunInv(states, steps);
    TheRecordOf(states[i], h);
  }

  lemma {:induction false} NullIsNeverOut(list: seq<Rec>)
    requires ListOk(list)
    ensures Total(list, RefsAt(0)) == 0
  {
    if list == [] {
    } else {
      assert list[0] in list;
      NullIsNeverOut(list[1..]);
    }
  }

  lemma BeginFreesUnused(s: Mtp, found: seq<Found>, r: Rec)
    requires Inv(s) && s.phase == Idle && r in Dead(Match(s.list, Raws(found), RawOf).left)
    ensures r.refCnt == 0 && r.handle !in Begin(s, found).out
  {
    var m := Match(s.list, Raws(found), RawOf);
    var h := r.handle;
    DeadHaveNoRefs(m.left, h);
    MatchConserves(s.list, Raws(found), RawOf);
    assert r in multiset(s.list);
    Counts(Dead(m.left), r);
    BeginTotals(s, found, HandleIs(h));
    OthersHaveNone(Begin(s, found).list, h);
    KeepBegin(s, found);
  }

  lemma StepFreesUnused(s: Mtp, step: Step, k: nat)
    requires Inv(s) && Legal(s, step) && |s.freed| <= k < |Do(s, step).freed|
    ensures var r := Do(s, step).freed[k]; r.refCnt == 0 && r.handle !in Do(s, step).out
  {
    var t := Do(s, step);
    KeepInv(s, step);
    match step {
      case SRelease(h) =>
        TheRecordOf(s, h);
        TotalWithout(s.list, Find(s.list, HandleOf, h), HandleIs(h));
        OthersHaveNone(t.list, h);
      case SBegin(found) =>
        BeginFreesUnused(s, found, t.freed[k]);
      case SOpen(handles) =>
        BadAreUnopened(s.added, handles);
        NullIsNeverOut(t.list);
      case _ =>
    }
  }

  /** A step only frees records that nobody uses, and keeps the history of what was freed. */
  lemma FreedWhenUnused(states: seq<Mtp>, steps: seq<Step>, i: nat, k: nat)
    requires IsRun(states, steps) && i < |steps| && |states[i].freed| <= k < |states[i + 1].freed|
    ensures var r := states[i + 1].freed[k]; r.refCnt == 0 && r.handle !in states[i + 1].out
    ensures states[i].freed <= states[i + 1].freed
  {
    RunInv(states, steps);
    StepFreesUnused(states[i], steps[i], k);
  }

  lemma {:induction false} BadAreUnopened(added: seq<Rec>, handles: seq<nat>)
    requires |handles| == |added| && AddedOk(added, Created)
    ensures forall r | r in Bad(added, handles) :: r.handle == 0 && r.refCnt == 0
  {
    if added == [] {
    } else {
      BadAreUnopened(added[..|added| - 1], handles[..|added| - 1]);
    }
  }

  /** No record is freed twice, none that was freed is still listed or waiting, and none is lost. */
  lemma FreedOnce(states: seq<Mtp>, steps: seq<Step>, i: nat, n: nat)
    requires IsRun(states, steps) && i < |states|
    ensures var s := states[i];
      Total(s.list, NumIs(n)) + Total(s.added, NumIs(n)) + Total(s.freed, NumIs(n)) == if n < s.born then 1 else 0
  {
    RunInv(states, steps);
  }

  /** Whenever the lock is free, a record marked for removal is in use. */
  lemma MarkedIsInUse(states: seq<Mtp>, steps: seq<Step>, i: nat, r: Rec)
    requires IsRun(states, steps) && i < |states| && r in states[i].list && r.remove
    ensures states[i].out[r.handle] == r.refCnt > 0
  {
    RunInv(states, steps);
    TheHandleOf(states[i], r);
  }

  /** Unload's assertion holds for every record exactly when all handles were released. */
  lemma UnloadIffAllReleased(states: seq<Mtp>, steps: seq<Step>, i: nat)
    requires IsRun(states, steps) && i < |states|
    ensures (forall r | r in states[i].list :: r.refCnt == 0) <==> states[i].out == multiset{}
  {
    RunInv(states, steps);
    var s := states[i];
    if forall r | r in s.list :: r.refCnt == 0 {
      forall h: nat ensures s.out[h] == 0 { NewHaveNoRefs(s.list, h); }
      assert s.out == multiset{};
    } else {
      var r :| r in s.list && r.refCnt != 0;
      TheHandleOf(s, r);
    }
  }

  // ---------------------------------------------------------------- devices that come back

  lemma {:induction false} TakenByTheirKey(list: seq<Rec>, wanted: seq<Raw>, r: Rec)
    requires r in Reused(Match(list, wanted, RawOf).taken)
    ensures r.raw in wanted && r in list
  {
    var m := Match(list, wanted, RawOf);
    MatchConserves(list, wanted, RawOf);
    assert r in multiset(list);
    ReusedIsTaken(m.taken, r);
    var i :| 0 <= i < |m.taken| && m.taken[i] == Some(r);
    MatchFits(list, wanted, RawOf, i);
  }

  lemma {:induction false} ReusedIsTaken<R>(taken: seq<Option<R>>, r: R)
    requires r in Reused(taken)
    ensures Some(r) in taken
  {
    if taken[|taken| - 1] == Some(r) {
    } else {
      ReusedIsTaken(taken[..|taken| - 1], r);
    }
  }

  /** The record is listed, with the same handle and mark; its count may have changed. */
  ghost predicate Stands(s: Mtp, r: Rec) {
    exists q | q in s.list :: q.num == r.num && q.handle == r.handle && q.remove == r.remove
  }

  /** Its last handle came back while it was marked. */
  ghost predicate Lost(s: Mtp, r: Rec) {
    Total(s.freed, NumIs(r.num)) > 0
  }

  lemma StandsOrLost(s: Mtp, r: Rec)
    requires Inv(s)
    ensures Stands(s, r) ==> Total(s.list, NumIs(r.num)) == 1 && !Lost(s, r)
    ensures Stands(s, r) && r.remove ==> r.handle in s.out
    ensures Lost(s, r) ==> Total(s.list, NumIs(r.num)) == 0
  {
    assert Conserved(s);
    if Stands(s, r) {
      var q :| q in s.list && q.num == r.num && q.handle == r.handle && q.remove == r.remove;
      Counts(s.list, q);
      TheHandleOf(s, q);
    }
  }

  lemma GetKeeps(s: Mtp, id: string, r: Rec)
    requires Stands(s, r)
    ensures Stands(Get(s, id).0, r)
  {
    var q :| q in s.list && q.num == r.num && q.handle == r.handle && q.remove == r.remove;
    var k :| 0 <= k < |s.list| && s.list[k] == q;
    var t := Get(s, id).0;
    assert t.list[k] in t.list;
  }

  lemma ReleaseKeepsOrLoses(s: Mtp, h: nat, r: Rec)
    requires Inv(s) && h in s.out && Stands(s, r)
    ensures var t := Release(s, h);
      Stands(t, r) || (r.remove && r.handle !in t.out && Lost(t, r))
  {
    var q :| q in s.list && q.num == r.num && q.handle == r.handle && q.remove == r.remove;
    TheRecordOf(s, h);
    TheHandleOf(s, q);
    var i := Find(s.list, HandleOf, h);
    var rec := s.list[i].(refCnt := s.list[i].refCnt - 1);
    var t := Release(s, h);
    if q == s.list[i] {
      TotalLast(s.freed, rec, NumIs(r.num));
      assert t.list == s.list[i := rec] ==> t.list[i] in t.list;
    } else {
      WithoutMembers(s.list, i);
      var k :| 0 <= k < |s.list| && s.list[k] == q;
      assert s.list[i := rec][k] == q;
    }
  }

  /** Between two enumerations a record stays as it is, or is lost with its last handle. */
  lemma StepKeepsOrLoses(s: Mtp, step: Step, r: Rec)
    requires Inv(s) && Legal(s, step) && !step.SBegin? && Stands(s, r)
    ensures var t := Do(s, step);
      Stands(t, r) || (r.remove && r.handle !in t.out && Lost(t, r))
  {
    match step
    case SGet(id) => GetKeeps(s, id, r);
    case SRelease(h) => ReleaseKeepsOrLoses(s, h, r);
    case SOpen(_) =>
    case SJoin =>
      var q :| q in s.list && q.num == r.num && q.handle == r.handle && q.remove == r.remove;
      assert q in Join(s).list;
  }

  lemma FreedStays(s: Mtp, step: Step, r: Rec)
    requires Legal(s, step) && Lost(s, r)
    ensures Lost(Do(s, step), r)
  {
    var more := Do(s, step).freed[|s.freed|..];
    assert Do(s, step).freed == s.freed + more;
    TotalSplit(s.freed, more, NumIs(r.num));
  }

  lemma BeginKeepsReused(s: Mtp, found: seq<Found>, r: Rec)
    requires r in Reused(Match(s.list, Raws(found), RawOf).taken)
    ensures Stands(Begin(s, found), r)
  {
    assert r in Begin(s, found).list;
  }

  /** Whether all handles of a record stayed out, from after step `i` up to state `j`. */
  ghost predicate InUseSince(states: seq<Mtp>, r: Rec, i: nat, j: nat)
    requires j < |states|
  {
    forall k | i < k <= j :: r.handle in states[k].out
  }

  /** A record enumerated by step `i` of a run, in any state `j` before the next enumeration. */
  ghost predicate Enumerated(states: seq<Mtp>, steps: seq<Step>, r: Rec, i: nat, j: nat) {
    && IsRun(states, steps) && i < j < |states|
    && steps[i].SBegin? && r in Reused(Match(states[i].list, Raws(steps[i].found), RawOf).taken)
    && forall k | i < k < j :: !steps[k].SBegin?
  }

  lemma OneMoreState(states: seq<Mtp>, r: Rec, i: nat, j: nat)
    requires i < j < |states|
    ensures InUseSince(states, r, i, j) <==> InUseSince(states, r, i, j - 1) && r.handle in states[j].out
  {
  }

  ghost predicate Fate(states: seq<Mtp>, r: Rec, i: nat, j: nat)
    requires j < |states|
  {
    if Stands(states[j], r) then r.remove ==> InUseSince(states, r, i, j)
    else r.remove && Lost(states[j], r) && !InUseSince(states, r, i, j)
  }

  lemma StepFate(states: seq<Mtp>, steps: seq<Step>, r: Rec, i: nat, j: nat)
    requires IsRun(states, steps) && i < j < |states| - 1 && !steps[j].SBegin? && Fate(states, r, i, j)
    ensures Fate(states, r, i, j + 1)
  {
    RunInv(states, steps);
    OneMoreState(states, r, i, j + 1);
    if Stands(states[j], r) {
      StepKeepsOrLoses(states[j], steps[j], r);
    } else {
      FreedStays(states[j], steps[j], r);
    }
    StandsOrLost(states[j + 1], r);
  }

  lemma {:induction false} EnumeratedHasFate(states: seq<Mtp>, steps: seq<Step>, r: Rec, i: nat, j: nat)
    requires Enumerated(states, steps, r, i, j)
    ensures Fate(states, r, i, j)
  {
    if j == i + 1 {
      RunInv(states, steps);
      BeginKeepsReused(states[i], steps[i].found, r);
      StandsOrLost(states[j], r);
    } else {
      EnumeratedHasFate(states, steps, r, i, j - 1);
      StepFate(states, steps, r, i, j - 1);
    }
  }

  /** In every run and until the next enumeration: a device that was enumerated stays listed if its record was
      not marked before; if it was, it is dropped, although it is plugged in, as soon as and only if there was
      a moment when none of its handles was out. */
  lemma ReturnedIsLostIffMarked(states: seq<Mtp>, steps: seq<Step>, r: Rec, i: nat, j: nat)
    requires Enumerated(states, steps, r, i, j)
    ensures r.raw in Raws(steps[i].found)
    ensures Total(states[j].list, NumIs(r.num)) == if r.remove && !InUseSince(states, r, i, j) then 0 else 1
  {
    TakenByTheirKey(states[i].list, Raws(steps[i].found), r);
    EnumeratedHasFate(states, steps, r, i, j);
    RunInv(states, steps);
    StandsOrLost(states[j], r);
  }

  lemma MatchOne(r: Rec)
    ensures Match([r], [r.raw], RawOf) == Matched([Some(r)], []) && Reused([Some(r)]) == [r]
    ensures Missing([Some(r)], [Found(r.raw, r.id)]) == []
  {
    assert [r.raw][..0] == [] && [Some(r)][..0] == [];
    assert Without([r], 0) == [];
    assert Match([r], [], RawOf) == Matched([], [r]);
  }

  lemma MatchNone(f: Found)
    ensures Match([], [f.raw], RawOf) == Matched([None], []) && Missing<Rec, Found>([None], [f]) == [f]
    ensures Reused<Rec>([None]) == []
  {
    assert [f.raw][..0] == [] && [f][..0] == [];
    assert Match([], [], RawOf) == Matched([], []);
  }

  const PLUGGED := Found(Raw(1, 2), "a")
  const UNUSED := Rec(0, "a", PLUGGED.raw, 7, 0, false)
  const MARKED := Rec(0, "a", PLUGGED.raw, 7, 1, true)

  /** A run in which a device is unplugged while in use, plugged in again, and lost at the release. */
  function LostStep(i: nat): Step {
    match i
    case 0 => SBegin([PLUGGED])
    case 1 => SOpen([7])
    case 2 => SJoin
    case 3 => SGet("a")
    case 4 => SBegin([])
    case 5 => SOpen([])
    case 6 => SJoin
    case 7 => SBegin([PLUGGED])
    case 8 => SOpen([])
    case 9 => SJoin
    case _ => SRelease(7)
  }

  function LostState(i: nat): Mtp {
    match i
    case 0 => EMPTY
    case 1 => Mtp([], [UNUSED.(handle := 0)], Created, multiset{}, [], 1)
    case 2 => Mtp([], [UNUSED], Opened, multiset{}, [], 1)
    case 3 => Mtp([UNUSED], [], Idle, multiset{}, [], 1)
    case 4 => Mtp([UNUSED.(refCnt := 1)], [], Idle, multiset{7}, [], 1)
    case 5 => Mtp([MARKED], [], Created, multiset{7}, [], 1)
    case 6 => Mtp([MARKED], [], Opened, multiset{7}, [], 1)
    case 7 => Mtp([MARKED], [], Idle, multiset{7}, [], 1)
    case 8 => Mtp([MARKED], [], Created, multiset{7}, [], 1)
    case 9 => Mtp([MARKED], [], Opened, multiset{7}, [], 1)
    case 10 => Mtp([MARKED], [], Idle, multiset{7}, [], 1)
    case _ => Mtp([], [], Idle, multiset{}, [MARKED.(refCnt := 0)], 1)
  }

  ghost predicate LostStepOk(i: nat) {
    Legal(LostState(i), LostStep(i)) && LostState(i + 1) == Do(LostState(i), LostStep(i))
  }

  lemma LostBegins()
    ensures LostStepOk(0) && LostStepOk(4) && LostStepOk(7)
  {
    assert Raws([PLUGGED]) == [PLUGGED.raw] && Raws([]) == [];
    MatchNone(PLUGGED);
    MatchOne(MARKED);
    var used := UNUSED.(refCnt := 1);
    assert Match([used], [], RawOf) == Matched([], [used]);
    assert [used][..0] == [] && Kept([used]) == [MARKED] && Dead([used]) == [];
  }

  lemma OpenOne(r: Rec, h: nat)
    requires h != 0
    ensures Good([r], [h]) == [r.(handle := h)] && Bad([r], [h]) == []
  {
    assert [r][..0] == [] && [h][..0] == [];
    assert Bad([r], [h]) == Bad([r][..0], [h][..0]);
    assert Good([r], [h]) == Good([r][..0], [h][..0]) + [r.(handle := h)];
  }

  lemma LostOpens()
    ensures LostStepOk(1) && LostStepOk(5) && LostStepOk(8)
  {
    LostFirstOpen();
    LostOtherOpens();
  }

  lemma LostFirstOpen()
    ensures LostStepOk(1)
  {
    OpenOne(UNUSED.(handle := 0), 7);
  }

  lemma LostOtherOpens()
    ensures LostStepOk(5) && LostStepOk(8)
  {
  }

  lemma LostJoins()
    ensures LostStepOk(2) && LostStepOk(3) && LostStepOk(6) && LostStepOk(9)
  {
    assert Get(LostState(3), "a").0 == LostState(4);
  }

  lemma LostRelease()
    ensures LostStepOk(10)
  {
    var s := LostState(10);
    assert s.list[0].handle == 7 && Find(s.list, HandleOf, 7) == 0;
    assert Without(s.list, 0) == [];
    assert Release(s, 7) == LostState(11);
  }

  lemma LostStepHolds(i: nat)
    requires i < 11
    ensures LostStepOk(i)
  {
    LostBegins();
    LostOpens();
    LostJoins();
    LostRelease();
    assert i in {0, 1, 2, 3, 4, 5, 6, 7, 8, 9, 10};
  }

  lemma ReturnedDeviceIsLost() returns (states: seq<Mtp>, steps: seq<Step>)
    ensures IsRun(states, steps) && |steps| == 11
    ensures steps[7] == SBegin([PLUGGED]) && states[7].list == states[10].list == [MARKED] && states[11].list == []
  {
    states, steps := seq(12, i requires 0 <= i < 12 => LostState(i)), seq(11, i requires 0 <= i < 11 => LostStep(i));
    forall i | 0 <= i < 11 ensures Legal(states[i], steps[i]) && states[i + 1] == Do(states[i], steps[i]) {
      LostStepHolds(i);
    }
  }

  // ---------------------------------------------------------------- the methods

  /** One round of the matching loop, in terms of what it appends to. */
  lemma TakeStep(b: Matched<Rec>, before: seq<Found>, f: Found, born: nat)
    requires |b.taken| == |before|
    ensures var m := Take(b, RawOf, f.raw);
      var itr := Find(b.left, RawOf, f.raw);
      var was, now := Missing(b.taken, before), Missing(m.taken, before + [f]);
      if itr == |b.left| then
        && m.left == b.left && Reused(m.taken) == Reused(b.taken)
        && Create(now, born) == Create(was, born) + [Rec(born + |was|, f.id, f.raw, 0, 0, false)]
      else
        m.left == Without(b.left, itr) && Reused(m.taken) == Reused(b.taken) + [b.left[itr]] && now == was
  {
    var m := Take(b, RawOf, f.raw);
    assert m.taken[..|before|] == b.taken && (before + [f])[..|before|] == before;
  }

  class MtpDeviceMon {
    var list: seq<Rec>
    var added: seq<Rec>
    ghost var phase: Phase
    ghost var out: multiset<nat>
    ghost var freed: seq<Rec>
    var born: nat

    ghost function State(): Mtp
      reads this
    {
      Mtp(list, added, phase, out, freed, born)
    }

    constructor ()
      ensures State() == EMPTY
    {
      list, added, phase, out, freed, born := [], [], Idle, multiset{}, [], 0;
    }

    method GetMtpDevice(id: string) returns (r: Option<nat>)
      modifies this
      ensures (State(), r) == Get(old(State()), id)
    {
      var itr := FindFirst(list, IdOf, id);
      if itr == |list| {
        return None;
      }
      var rec := list[itr];
      list := list[itr := rec.(refCnt := rec.refCnt + 1)];
      out := out + multiset{rec.handle};
      return Some(rec.handle);
    }

    method ReleaseMtpDevice(h: nat)
      requires Inv(State()) && h in out
      modifies this
      ensures State() == Release(old(State()), h)
    {
      TheRecordOf(State(), h);
      var itr := FindFirst(list, HandleOf, h);
      assert itr != |list|;
      var rec := list[itr].(refCnt := list[itr].refCnt - 1);
      list := list[itr := rec];
      out := out - multiset{h};
      if rec.remove && rec.refCnt == 0 {
        list := Without(list, itr);
        freed := freed + [rec];
      }
    }

    /** The three lists and the counter are what matching has made of the devices seen so far. */
    ghost predicate Progress(m: Matched<Rec>, before: seq<Found>, dup: seq<Rec>, born0: nat)
      requires |m.taken| == |before|
      reads this
    {
      && dup == m.left && list == Reused(m.taken)
      && added == Create(Missing(m.taken, before), born0) && born == born0 + |added|
    }

    /** One enumerated device: a record still there is kept, otherwise a new one is made. */
    method PlaceOne(f: Found, dup: seq<Rec>, ghost m: Matched<Rec>, ghost before: seq<Found>, ghost born0: nat)
      returns (dup': seq<Rec>)
      requires |m.taken| == |before| && Progress(m, before, dup, born0)
      modifies this`list, this`added, this`born
      ensures Progress(Take(m, RawOf, f.raw), before + [f], dup', born0)
    {
      TakeStep(m, before, f, born0);
      var itr := FindFirst(dup, RawOf, f.raw);
      if itr == |dup| {
        added := added + [Rec(born, f.id, f.raw, 0, 0, false)];
        born := born + 1;
        dup' := dup;
      } else {
        list := list + [dup[itr]];
        dup' := Without(dup, itr);
      }
    }

    method PlaceAll(found: seq<Found>) returns (dup: seq<Rec>)
      requires added == []
      modifies this`list, this`added, this`born
      ensures Progress(Match(old(list), Raws(found), RawOf), found, dup, old(born))
    {
      dup := list;
      list := [];
      ghost var m := Matched([], dup);
      var i := 0;
      while i < |found|
        invariant i <= |found| && m == Match(old(list), Raws(found)[..i], RawOf)
        invariant Progress(m, found[..i], dup, old(born))
      {
        assert found[..i + 1] == found[..i] + [found[i]] && Raws(found)[..i + 1][..i] == Raws(found)[..i];
        dup := PlaceOne(found[i], dup, m, found[..i], old(born));
        m := Take(m, RawOf, found[i].raw);
        i := i + 1;
      }
      assert Raws(found)[..i] == Raws(found) && found[..i] == found;
    }

    /** ProcessDevices up to the first unlock. */
    method BeginProcess(found: seq<Found>)
      requires phase == Idle && added == []
      modifies this
      ensures State() == Begin(old(State()), found)
    {
      var dup := PlaceAll(found);
      Retire(dup);
      phase := Created;
    }

    /** The loop over what was not enumerated. */
    method Retire(dup: seq<Rec>)
      modifies this`list, this`freed
      ensures list == old(list) + Kept(dup) && freed == old(freed) + Dead(dup)
    {
      var k := 0;
      while k < |dup|
        invariant k <= |dup|
        invariant list == old(list) + Kept(dup[..k]) && freed == old(freed) + Dead(dup[..k])
      {
        assert dup[..k + 1][..k] == dup[..k];
        if dup[k].refCnt > 0 {
          list := list + [dup[k].(remove := true)];
        } else {
          freed := freed + [dup[k]];
        }
        k := k + 1;
      }
      assert dup[..k] == dup;
    }

    /** InitRec on every new record, without the lock. */
    method OpenAdded(handles: seq<nat>)
      requires phase == Created && |handles| == |added|
      modifies this`added, this`freed, this`phase
      ensures State() == Open(old(State()), handles)
    {
      var ready := [];
      var k := 0;
      while k < |added|
        invariant k <= |added| && added == old(added) && phase == old(phase)
        invariant ready == Good(added[..k], handles[..k]) && freed == old(freed) + Bad(added[..k], handles[..k])
      {
        assert added[..k + 1][..k] == added[..k] && handles[..k + 1][..k] == handles[..k];
        if handles[k] == 0 {
          freed := freed + [added[k]];
        } else {
          ready := ready + [added[k].(handle := handles[k])];
        }
        k := k + 1;
      }
      assert added[..k] == added && handles[..k] == handles;
      added := ready;
      phase := Opened;
    }

    /** ProcessDevices after the second lock. */
    method JoinAdded()
      modifies this
      ensures State() == Join(old(State()))
    {
      list := list + added;
      added := [];
      phase := Idle;
    }

    /** After the monitor thread ended; every record is free to go. */
    method Unload()
      requires Inv(State()) && phase == Idle && out == multiset{}
      modifies this`list, this`freed
      ensures list == [] && freed == old(freed) + old(list)
      ensures forall n: nat :: Total(freed, NumIs(n)) == if n < born then 1 else 0
    {
      ghost var before := list;
      AllReleased(State());
      assert Conserved(State()) && added == [];
      while list != []
        invariant freed + list == old(freed) + before
        invariant forall r | r in list :: r.refCnt == 0
        decreases |list|
      {
        var rec := list[0];
        list := list[1..];
        assert rec.refCnt == 0;
        freed := freed + [rec];
      }
      assert freed == old(freed) + before;
      forall n: nat ensures Total(freed, NumIs(n)) == if n < born then 1 else 0 {
        TotalSplit(old(freed), before, NumIs(n));
        assert Total(old(State()).list, NumIs(n)) + Total(old(freed), NumIs(n)) == if n < born then 1 else 0;
      }
    }
  }

  lemma AllReleased(s: Mtp)
    requires Inv(s) && s.out == multiset{}
    ensures forall r | r in s.list :: r.refCnt == 0
  {
    forall r | r in s.list ensures r.refCnt == 0 {
      TheHandleOf(s, r);
    }
  }
}
