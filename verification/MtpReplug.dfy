/** Which MTP record is handed out when several have the same id. */
module MtpReplug {
  import opened Basics
  import opened MtpDeviceMon
  import opened Reconcile
  import opened Sums

  // A device plugged in again at another place gets a new record, while the old one stays listed as long as it is
  // in use.

  /** In terms of the last enumeration: `reused` are the records it found again, `born` how many there were. */
  ghost predicate Refound(reused: seq<Rec>, q: Rec) { exists r | r in reused :: r.num == q.num }

  ghost predicate Vanished(reused: seq<Rec>, born: nat, q: Rec) { !Refound(reused, q) && q.num < born }

  /** Found again, or new with that enumeration. */
  ghost predicate Plugged(reused: seq<Rec>, born: nat, q: Rec) { !Vanished(reused, born, q) }

  /** The list has the records found again first, then those that vanished, then the new ones. */
  ghost function Rank(reused: seq<Rec>, born: nat, q: Rec): nat {
    if Refound(reused, q) then 0 else if q.num < born then 1 else 2
  }

  ghost predicate Sorted(list: seq<Rec>, reused: seq<Rec>, born: nat) {
    forall a, b | 0 <= a < b < |list| :: Rank(reused, born, list[a]) <= Rank(reused, born, list[b])
  }

  ghost predicate AllNew(added: seq<Rec>, reused: seq<Rec>, born: nat) {
    forall q | q in added :: Rank(reused, born, q) == 2
  }

  ghost predicate Ranked(s: Mtp, reused: seq<Rec>, born: nat) {
    Sorted(s.list, reused, born) && AllNew(s.added, reused, born)
  }

  // ---------------------------------------------------------------- the order is kept

  lemma RankByNum(reused: seq<Rec>, born: nat, q: Rec, r: Rec)
    requires q.num == r.num
    ensures Rank(reused, born, q) == Rank(reused, born, r)
  {
  }

  lemma SortedUpdate(list: seq<Rec>, i: nat, r: Rec, reused: seq<Rec>, born: nat)
    requires Sorted(list, reused, born) && i < |list| && r.num == list[i].num
    ensures Sorted(list[i := r], reused, born)
  {
    RankByNum(reused, born, list[i], r);
  }

  lemma SortedWithout(list: seq<Rec>, i: nat, reused: seq<Rec>, born: nat)
    requires Sorted(list, reused, born) && i < |list|
    ensures Sorted(Without(list, i), reused, born)
  {
    var t := Without(list, i);
    forall a, b | 0 <= a < b < |t| ensures Rank(reused, born, t[a]) <= Rank(reused, born, t[b]) {
      var a', b' := if a < i then a else a + 1, if b < i then b else b + 1;
      assert t[a] == list[a'] && t[b] == list[b'];
    }
  }

  lemma SortedAppend(a: seq<Rec>, b: seq<Rec>, n: nat, reused: seq<Rec>, born: nat)
    requires Sorted(a, reused, born) && (forall q | q in a :: Rank(reused, born, q) <= n)
    requires forall q | q in b :: Rank(reused, born, q) == n
    ensures Sorted(a + b, reused, born)
  {
    var t := a + b;
    forall i, j | 0 <= i < j < |t| ensures Rank(reused, born, t[i]) <= Rank(reused, born, t[j]) {
      assert i < |a| ==> t[i] == a[i] && a[i] in a;
      assert i >= |a| ==> t[i] in b;
      assert j < |a| ==> t[j] == a[j];
      assert j >= |a| ==> t[j] in b;
    }
  }

  lemma {:induction false} KeptNums(left: seq<Rec>)
    ensures forall q | q in Kept(left) :: exists r | r in left :: r.num == q.num
  {
    if left == [] {
    } else {
      KeptNums(left[..|left| - 1]);
      assert left[|left| - 1] in left;
    }
  }

  lemma {:induction false} GoodNums(added: seq<Rec>, handles: seq<nat>)
    requires |handles| == |added|
    ensures forall q | q in Good(added, handles) :: exists r | r in added :: r.num == q.num
  {
    if added == [] {
    } else {
      GoodNums(added[..|added| - 1], handles[..|added| - 1]);
      assert added[|added| - 1] in added;
    }
  }

  lemma ReusedAreListed(s: Mtp, found: seq<Found>, r: Rec)
    requires r in Reused(Match(s.list, Raws(found), RawOf).taken)
    ensures r in s.list
  {
    TakenByTheirKey(s.list, Raws(found), r);
  }

  lemma ListedWereBorn(s: Mtp, r: Rec)
    requires Conserved(s) && r in s.list
    ensures r.num < s.born
  {
    Counts(s.list, r);
  }

  /** A record that is left over was not found again. */
  lemma LeftIsVanished(s: Mtp, found: seq<Found>, q: Rec)
    requires Conserved(s) && q in Match(s.list, Raws(found), RawOf).left
    ensures Rank(Reused(Match(s.list, Raws(found), RawOf).taken), s.born, q) == 1
  {
    var m := Match(s.list, Raws(found), RawOf);
    MatchTotals(s.list, Raws(found), RawOf, NumIs(q.num));
    Counts(m.left, q);
    if r :| r in Reused(m.taken) && r.num == q.num {
      Counts(Reused(m.taken), r);
      assert false;
    }
  }

  lemma BeginRanks(s: Mtp, found: seq<Found>)
    requires Conserved(s)
    ensures Ranked(Begin(s, found), Reused(Match(s.list, Raws(found), RawOf).taken), s.born)
  {
    var m := Match(s.list, Raws(found), RawOf);
    var reused := Reused(m.taken);
    KeptNums(m.left);
    forall q | q in Kept(m.left) ensures Rank(reused, s.born, q) == 1 {
      var r :| r in m.left && r.num == q.num;
      LeftIsVanished(s, found, r);
      RankByNum(reused, s.born, q, r);
    }
    forall q | q in reused ensures Rank(reused, s.born, q) == 0 { }
    SortedAppend(reused, Kept(m.left), 1, reused, s.born);
    forall q | q in Begin(s, found).added ensures Rank(reused, s.born, q) == 2 {
      if r :| r in reused && r.num == q.num {
        ReusedAreListed(s, found, r);
        ListedWereBorn(s, r);
        assert false;
      }
    }
  }

  lemma StepRanks(s: Mtp, step: Step, reused: seq<Rec>, born: nat)
    requires Legal(s, step) && !step.SBegin? && Ranked(s, reused, born)
    ensures Ranked(Do(s, step), reused, born)
  {
    match step
    case SGet(id) =>
      var i := Find(s.list, IdOf, id);
      if i < |s.list| {
        SortedUpdate(s.list, i, Get(s, id).0.list[i], reused, born);
      }
    case SRelease(h) =>
      var i := Find(s.list, HandleOf, h);
      if i < |s.list| && s.list[i].refCnt > 0 {
        SortedUpdate(s.list, i, s.list[i].(refCnt := s.list[i].refCnt - 1), reused, born);
        SortedWithout(s.list, i, reused, born);
      }
    case SOpen(handles) =>
      GoodNums(s.added, handles);
      forall q | q in Good(s.added, handles) ensures Rank(reused, born, q) == 2 {
        var r :| r in s.added && r.num == q.num;
        RankByNum(reused, born, q, r);
      }
    case SJoin => SortedAppend(s.list, s.added, 2, reused, born);
  }

  // ---------------------------------------------------------------- what GetMtpDevice hands out

  /** State `j` of a run, after the enumeration of step `i` and before the next one. */
  ghost predicate Since(states: seq<Mtp>, steps: seq<Step>, i: nat, j: nat) {
    IsRun(states, steps) && i < j < |states| && steps[i].SBegin? && forall k | i < k < j :: !steps[k].SBegin?
  }

  ghost function ReusedBy(states: seq<Mtp>, steps: seq<Step>, i: nat): seq<Rec>
    requires i < |states| && i < |steps| && steps[i].SBegin?
  {
    Reused(Match(states[i].list, Raws(steps[i].found), RawOf).taken)
  }

  lemma {:induction false} RunRanks(states: seq<Mtp>, steps: seq<Step>, i: nat, j: nat)
    requires Since(states, steps, i, j)
    ensures Ranked(states[j], ReusedBy(states, steps, i), states[i].born)
  {
    if j == i + 1 {
      RunInv(states, steps);
      BeginRanks(states[i], steps[i].found);
    } else {
      RunRanks(states, steps, i, j - 1);
      StepRanks(states[j - 1], steps[j - 1], ReusedBy(states, steps, i), states[i].born);
    }
  }

  /** The first record of a sorted list with the id vanished, if and only if one with the id did and none with
      the id was found again. */
  lemma FirstVanishedIff(list: seq<Rec>, id: string, reused: seq<Rec>, born: nat)
    requires Sorted(list, reused, born) && Find(list, IdOf, id) < |list|
    ensures Vanished(reused, born, list[Find(list, IdOf, id)])
       <==> (exists r | r in list :: r.id == id && Vanished(reused, born, r))
            && !exists r | r in list :: r.id == id && Refound(reused, r)
  {
    var k := Find(list, IdOf, id);
    assert list[k] in list;
    forall r | r in list && r.id == id ensures Rank(reused, born, list[k]) <= Rank(reused, born, r) {
      var n :| 0 <= n < |list| && list[n] == r;
      assert n >= k;
    }
  }

  /** A handle belongs to one record. */
  lemma OneRecord(s: Mtp, q: Rec)
    requires Inv(s) && q in s.list
    ensures forall r | r in s.list && r.handle == q.handle :: r == q
  {
    forall r | r in s.list && r.handle == q.handle ensures r == q {
      TheHandleOf(s, q);
      TheHandleOf(s, r);
    }
  }

  ghost predicate Lists(s: Mtp, id: string, p: Rec -> bool) { exists r | r in s.list :: r.id == id && p(r) }

  /** GetMtpDevice hands out the handle of such a record. */
  ghost predicate GetsA(s: Mtp, id: string, p: Rec -> bool) {
    exists r | r in s.list :: Get(s, id).1 == Some(r.handle) && p(r)
  }

  lemma GetsTheFirst(s: Mtp, id: string, p: Rec -> bool)
    requires Inv(s)
    ensures GetsA(s, id, p) <==> Find(s.list, IdOf, id) < |s.list| && p(s.list[Find(s.list, IdOf, id)])
  {
    var k := Find(s.list, IdOf, id);
    if k < |s.list| {
      OneRecord(s, s.list[k]);
    }
  }

  /** In every run, between one enumeration and the next: what GetMtpDevice hands out for an id belongs to a
      record that is plugged in, if and only if one with the id was found again, or a new one with the id is
      listed and no vanished one is still in use. It belongs to a record whose device is not there any more,
      if and only if one with the id is still in use and none with the id was found again: a new one with the
      id, though listed, is not handed out. */
  lemma GetIsStaleIff(states: seq<Mtp>, steps: seq<Step>, i: nat, j: nat, id: string)
    requires Since(states, steps, i, j)
    ensures var s, reused, born := states[j], ReusedBy(states, steps, i), states[i].born;
      var found, gone := r => Refound(reused, r), r => Vanished(reused, born, r);
      && (GetsA(s, id, r => Plugged(reused, born, r))
          <==> Lists(s, id, found) || (Lists(s, id, r => Plugged(reused, born, r)) && !Lists(s, id, gone)))
      && (GetsA(s, id, gone) <==> Lists(s, id, gone) && !Lists(s, id, found))
  {
    RunInv(states, steps);
    RunRanks(states, steps, i, j);
    var s, reused, born := states[j], ReusedBy(states, steps, i), states[i].born;
    GetsTheFirst(s, id, r => Plugged(reused, born, r));
    GetsTheFirst(s, id, r => Vanished(reused, born, r));
    var k := Find(s.list, IdOf, id);
    if k < |s.list| {
      FirstVanishedIff(s.list, id, reused, born);
    }
  }

  // ---------------------------------------------------------------- a run in which it does

  const MOVED := Found(Raw(1, 3), "a")
  const AGAIN := Rec(1, "a", MOVED.raw, 8, 0, false)

  /** The device "a" is opened and used, unplugged, and plugged in again at another place. */
  function ReplugStep(i: nat): Step {
    match i
    case 4 => SBegin([MOVED])
    case 5 => SOpen([8])
    case 6 => SJoin
    case _ => LostStep(i)
  }

  function ReplugState(i: nat): Mtp {
    match i
    case 5 => Mtp([MARKED], [AGAIN.(handle := 0)], Created, multiset{7}, [], 2)
    case 6 => Mtp([MARKED], [AGAIN], Opened, multiset{7}, [], 2)
    case 7 => Mtp([MARKED, AGAIN], [], Idle, multiset{7}, [], 2)
    case _ => LostState(i)
  }

  ghost predicate ReplugStepOk(i: nat) {
    && Legal(ReplugState(i), ReplugStep(i))
    && ReplugState(i + 1) == Do(ReplugState(i), ReplugStep(i))
  }

  lemma ReplugBegins()
    ensures ReplugStepOk(4)
  {
    var used := UNUSED.(refCnt := 1);
    assert Raws([MOVED]) == [MOVED.raw];
    assert [MOVED.raw][..0] == [] && [MOVED][..0] == [] && [used][..0] == [];
    assert Match([used], [], RawOf) == Matched([], [used]);
    assert Find([used], RawOf, MOVED.raw) == 1;
    assert Match([used], [MOVED.raw], RawOf) == Matched([None], [used]);
    assert Missing<Rec, Found>([None], [MOVED]) == [MOVED] && Reused<Rec>([None]) == [];
    assert Kept([used]) == [MARKED] && Dead([used]) == [];
    assert Create([MOVED], 1) == [AGAIN.(handle := 0)];
  }

  lemma ReplugOpens()
    ensures ReplugStepOk(5) && ReplugStepOk(6)
  {
    OpenOne(AGAIN.(handle := 0), 8);
  }

  lemma ReplugStepHolds(i: nat)
    requires i < 7
    ensures ReplugStepOk(i)
  {
    if i < 4 {
      LostStepHolds(i);
    } else {
      ReplugBegins();
      ReplugOpens();
    }
  }

  /** The replugged device has a new record with handle 8, and GetMtpDevice hands out the old handle 7. */
  lemma ReplugGetsStale() returns (states: seq<Mtp>, steps: seq<Step>)
    ensures IsRun(states, steps) && |steps| == 7 && Since(states, steps, 4, 7)
    ensures steps[4] == SBegin([MOVED]) && states[7].list == [MARKED, AGAIN] && MARKED.raw != MOVED.raw == AGAIN.raw
    ensures Get(states[7], "a").1 == Some(MARKED.handle) != Some(AGAIN.handle)
  {
    states := seq(8, i requires 0 <= i < 8 => ReplugState(i));
    steps := seq(7, i requires 0 <= i < 7 => ReplugStep(i));
    forall i | 0 <= i < 7 ensures Legal(states[i], steps[i]) && states[i + 1] == Do(states[i], steps[i]) {
      ReplugStepHolds(i);
    }
  }
}
