/** Which MTP records are marked, and when they go. */
module MtpMarks {
  import opened Basics
  import opened MtpDeviceMon
  import opened MtpReplug
  import opened Reconcile
  import opened Sums

  // ---------------------------------------------------------------- marks

  /** Found again with its mark already set. */
  ghost predicate WasMarked(reused: seq<Rec>, q: Rec) { exists r | r in reused :: r.num == q.num && r.remove }

  /** A listed record is marked exactly if the last enumeration did not find it, or an earlier one did not. */
  ghost predicate Marks(list: seq<Rec>, reused: seq<Rec>, born: nat) {
    forall q | q in list :: q.remove <==> Vanished(reused, born, q) || WasMarked(reused, q)
  }

  lemma MarkByNum(reused: seq<Rec>, born: nat, q: Rec, r: Rec)
    requires q.num == r.num
    ensures Vanished(reused, born, q) <==> Vanished(reused, born, r)
    ensures WasMarked(reused, q) <==> WasMarked(reused, r)
  {
  }

  lemma {:induction false} KeptAreMarked(left: seq<Rec>)
    ensures forall q | q in Kept(left) :: q.remove
  {
    if left == [] {
    } else {
      KeptAreMarked(left[..|left| - 1]);
    }
  }

  /** No two listed records have one number. */
  lemma SameNum(s: Mtp, q: Rec, r: Rec)
    requires Conserved(s) && q in s.list && r in s.list && q.num == r.num
    ensures q == r
  {
    if q != r {
      var i :| 0 <= i < |s.list| && s.list[i] == q;
      TotalWithout(s.list, i, NumIs(q.num));
      WithoutMembers(s.list, i);
      Counts(Without(s.list, i), r);
    }
  }

  lemma BeginMarks(s: Mtp, found: seq<Found>)
    requires Conserved(s)
    ensures var m := Match(s.list, Raws(found), RawOf); Marks(Begin(s, found).list, Reused(m.taken), s.born)
  {
    var m := Match(s.list, Raws(found), RawOf);
    var reused := Reused(m.taken);
    forall q | q in Begin(s, found).list ensures q.remove <==> Vanished(reused, s.born, q) || WasMarked(reused, q) {
      if q in reused {
        ReusedAreListed(s, found, q);
        forall r | r in reused && r.num == q.num ensures r == q {
          ReusedAreListed(s, found, r);
          SameNum(s, q, r);
        }
      } else {
        KeptAreMarked(m.left);
        KeptNums(m.left);
        var r :| r in m.left && r.num == q.num;
        LeftIsVanished(s, found, r);
        MarkByNum(reused, s.born, q, r);
      }
    }
  }

  lemma UpdateMarks(list: seq<Rec>, i: nat, r: Rec, reused: seq<Rec>, born: nat)
    requires Marks(list, reused, born) && i < |list| && r.num == list[i].num && r.remove == list[i].remove
    ensures Marks(list[i := r], reused, born)
  {
    assert list[i] in list;
    MarkByNum(reused, born, list[i], r);
    assert forall q | q in list[i := r] :: q in list || q == r;
  }

  lemma NewAreUnmarked(added: seq<Rec>, reused: seq<Rec>, born: nat)
    requires AllNew(added, reused, born) && forall q | q in added :: !q.remove
    ensures Marks(added, reused, born)
  {
    forall q | q in added ensures !Vanished(reused, born, q) && !WasMarked(reused, q) {
      assert Rank(reused, born, q) == 2;
    }
  }

  lemma StepMarks(s: Mtp, step: Step, reused: seq<Rec>, born: nat)
    requires Inv(s) && Legal(s, step) && !step.SBegin? && Ranked(s, reused, born) && Marks(s.list, reused, born)
    ensures Marks(Do(s, step).list, reused, born)
  {
    match step
    case SGet(id) =>
      var i := Find(s.list, IdOf, id);
      if i < |s.list| {
        UpdateMarks(s.list, i, Get(s, id).0.list[i], reused, born);
      }
    case SRelease(h) =>
      var i := Find(s.list, HandleOf, h);
      if i < |s.list| && s.list[i].refCnt > 0 {
        UpdateMarks(s.list, i, s.list[i].(refCnt := s.list[i].refCnt - 1), reused, born);
        WithoutMembers(s.list, i);
      }
    case SOpen(_) =>
    case SJoin => NewAreUnmarked(s.added, reused, born);
  }

  lemma MarksMore(states: seq<Mtp>, steps: seq<Step>, i: nat, j: nat)
    requires Since(states, steps, i, j) && j < |steps| && !steps[j].SBegin?
    requires Marks(states[j].list, ReusedBy(states, steps, i), states[i].born)
    ensures Marks(states[j + 1].list, ReusedBy(states, steps, i), states[i].born)
  {
    RunInv(states, steps);
    RunRanks(states, steps, i, j);
    StepMarks(states[j], steps[j], ReusedBy(states, steps, i), states[i].born);
  }

  lemma {:induction false} RunMarks(states: seq<Mtp>, steps: seq<Step>, i: nat, j: nat)
    requires Since(states, steps, i, j)
    ensures Marks(states[j].list, ReusedBy(states, steps, i), states[i].born)
  {
    if j == i + 1 {
      RunInv(states, steps);
      BeginMarks(states[i], steps[i].found);
    } else {
      RunMarks(states, steps, i, j - 1);
      MarksMore(states, steps, i, j - 1);
    }
  }

  /** In every run, between one enumeration and the next: a listed record is marked if and only if it was not
      found, or was found and had been marked before. And a marked one is in use. */
  lemma MarkedIff(states: seq<Mtp>, steps: seq<Step>, i: nat, j: nat, q: Rec)
    requires Since(states, steps, i, j) && q in states[j].list
    ensures var reused := ReusedBy(states, steps, i);
      q.remove <==> Vanished(reused, states[i].born, q) || WasMarked(reused, q)
    ensures q.remove ==> states[j].out[q.handle] == q.refCnt > 0
  {
    RunMarks(states, steps, i, j);
    MarkedHasHandles(states, steps, j, q);
  }

  lemma MarkedHasHandles(states: seq<Mtp>, steps: seq<Step>, j: nat, q: Rec)
    requires IsRun(states, steps) && j < |states| && q in states[j].list
    ensures q.remove ==> states[j].out[q.handle] == q.refCnt > 0
  {
    if q.remove {
      MarkedIsInUse(states, steps, j, q);
    }
  }

  /** In every run: when a handle of a listed record comes back, the record is freed if and only if it is marked
      and that was the last one; otherwise it stays as it is, counted down. */
  lemma GoesWithItsLastHandle(states: seq<Mtp>, steps: seq<Step>, j: nat, q: Rec)
    requires IsRun(states, steps) && j < |steps| && q in states[j].list && steps[j] == SRelease(q.handle)
    ensures q.refCnt == states[j].out[q.handle] > 0
    ensures var s, t, r := states[j], states[j + 1], q.(refCnt := q.refCnt - 1);
      if q.remove && s.out[q.handle] == 1
      then t.freed == s.freed + [r] && Total(t.list, NumIs(q.num)) == 0
      else t.freed == s.freed && r in t.list
  {
    RunInv(states, steps);
    var s, t := states[j], states[j + 1];
    TheHandleOf(s, q);
    var i := Find(s.list, HandleOf, q.handle);
    TotalWithout(s.list, i, NumIs(q.num));
    Counts(s.list, q);
    assert Conserved(s);
    if !(q.remove && q.refCnt == 1) {
      assert t.list[i] == q.(refCnt := q.refCnt - 1);
    }
  }

  // ---------------------------------------------------------------- every device found has its record

  lemma {:induction false} RawsOfMissing(taken: seq<Option<Rec>>, found: seq<Found>)
    requires |taken| == |found|
    ensures Raws(Missing(taken, found)) == Missing(taken, Raws(found))
    ensures forall f | f in Missing(taken, found) :: f in found
  {
    if taken == [] {
    } else {
      var n := |taken| - 1;
      RawsOfMissing(taken[..n], found[..n]);
      assert Raws(found)[..n] == Raws(found[..n]);
    }
  }

  lemma {:induction false} CreatedRaws(found: seq<Found>, born: nat, x: Raw)
    ensures Count(Create(found, born), RawOf, x) == Count(Raws(found), Itself, x)
  {
    if found == [] {
    } else {
      var n := |found| - 1;
      CreatedRaws(found[..n], born, x);
      var r := Create(found, born)[n];
      assert Create(found, born) == Create(found[..n], born) + [r] && Raws(found) == Raws(found[..n]) + [found[n].raw];
      CountSplit(Create(found[..n], born), [r], RawOf, x);
      CountSplit(Raws(found[..n]), [found[n].raw], Itself, x);
      assert [r][1..] == [] && [found[n].raw][1..] == [];
    }
  }

  /** In every enumeration: each place found has as many records found again or new as it was found; a new one has
      place and id of a device found, is not marked and not opened, and nobody has it. */
  lemma FoundHaveRecords(s: Mtp, found: seq<Found>, x: Raw)
    ensures var m := Match(s.list, Raws(found), RawOf);
      Count(Reused(m.taken), RawOf, x) + Count(Begin(s, found).added, RawOf, x) == Count(Raws(found), Itself, x)
    ensures forall q | q in Begin(s, found).added ::
      Found(q.raw, q.id) in found && !q.remove && q.handle == 0 && q.refCnt == 0
    ensures Reused(Match(s.list, Raws(found), RawOf).taken) <= Begin(s, found).list
  {
    var m := Match(s.list, Raws(found), RawOf);
    MatchCounts(s.list, Raws(found), RawOf, x);
    RawsOfMissing(m.taken, found);
    CreatedRaws(Missing(m.taken, found), s.born, x);
    forall q | q in Begin(s, found).added ensures Found(q.raw, q.id) in found {
      assert Found(q.raw, q.id) in Missing(m.taken, found);
    }
  }

  /** Opening: exactly the new records that got a handle stay, each with its own; the others are freed. */
  lemma {:induction false} OpenedIff(added: seq<Rec>, handles: seq<nat>, q: Rec)
    requires |handles| == |added|
    ensures q in Good(added, handles)
       <==> exists k :: 0 <= k < |added| && handles[k] != 0 && q == added[k].(handle := handles[k])
    ensures q in Bad(added, handles) <==> exists k :: 0 <= k < |added| && handles[k] == 0 && q == added[k]
  {
    if added == [] {
    } else {
      var n := |added| - 1;
      OpenedIff(added[..n], handles[..n], q);
      assert forall k | 0 <= k < n :: added[..n][k] == added[k] && handles[..n][k] == handles[k];
    }
  }
}
