/** The inductive invariant of the scheduler: who may be where when a slot has work. Its parts are that a lock is
    held exactly by a caller that is inside, and that a slot with work has one token: a list entry, a worker,
    or a caller about to make the entry. Each group of steps keeps them. */
module SchedulerInvariant {
  import opened Basics
  import opened Scheduler

  predicate ByMonitor(l: Label) {
    l.Create? || l.Insert? || l.CenterAddRef? || l.Erase? || l.CenterRelease? || l.MonRelease?
  }

  predicate ByProducer(l: Label) {
    l.Get? || l.Borrow? || l.Push? || l.Request? || l.Post? || l.Unlock? || l.Drop?
  }

  predicate ByWorker(l: Label) {
    l.Look? || l.Wake? || l.Fetch? || l.Take? || l.Call? || l.FreeRec? || l.Release?
  }

  predicate ByCleanup(l: Label) { l.Quit? || l.QuitPost? }

  // ---------------------------------------------------------------- what each group of steps may change

  lemma MonitorFrame(s: State, l: Label)
    requires Shape(s) && Enabled(s, l) && ByMonitor(l)
    ensures var t := Effect(s, l);
      t == s.(devs := t.devs) && t.devs == s.devs[l.dev := DevOf(t.devs, l.dev)]
  {
  }

  /** Inside `QueueCmd`, as opposed to finding and dropping a device. */
  predicate InQueueCmd(l: Label) { l.Push? || l.Request? || l.Post? || l.Unlock? }

  /** Inside `Execute`, as opposed to the loop around it. */
  predicate InExecute(l: Label) { l.Take? || l.Call? || l.FreeRec? }

  ghost predicate ProducerOnly(s: State, t: State, p: nat) {
    && t.workers == s.workers && t.quit == s.quit && t.posts == s.posts
    && p < |s.producers| == |t.producers| && t.producers == s.producers[p := t.producers[p]]
  }

  lemma InsideFrame(s: State, l: Label)
    requires Shape(s) && Enabled(s, l) && InQueueCmd(l)
    ensures ProducerOnly(s, Effect(s, l), l.p)
  {
  }

  lemma OutsideFrame(s: State, l: Label)
    requires Shape(s) && Enabled(s, l) && ByProducer(l) && !InQueueCmd(l)
    ensures ProducerOnly(s, Effect(s, l), l.p)
  {
  }

  lemma ProducerFrame(s: State, l: Label)
    requires Shape(s) && Enabled(s, l) && ByProducer(l)
    ensures ProducerOnly(s, Effect(s, l), l.p)
  {
    if InQueueCmd(l) {
      InsideFrame(s, l);
    } else {
      OutsideFrame(s, l);
    }
  }

  ghost predicate WorkerOnly(s: State, t: State, w: nat) {
    && t.devs == s.devs && t.producers == s.producers && t.quit == s.quit && t.posts == s.posts
    && w < |s.workers| == |t.workers| && t.workers == s.workers[w := t.workers[w]]
    && t.workers[w].queue == s.workers[w].queue
  }

  lemma ExecuteFrame(s: State, l: Label)
    requires Shape(s) && Enabled(s, l) && InExecute(l)
    ensures WorkerOnly(s, Effect(s, l), l.w)
  {
  }

  lemma FetchFrame(s: State, w: nat)
    requires Shape(s) && WorkerAt(s, w)
    ensures WorkerOnly(s, AfterFetch(s, w), w)
  {
  }

  lemma LoopFrame(s: State, l: Label)
    requires Shape(s) && Enabled(s, l) && ByWorker(l) && !InExecute(l)
    ensures WorkerOnly(s, Effect(s, l), l.w)
  {
    if l.Fetch? {
      FetchFrame(s, l.w);
    }
  }

  lemma WorkerFrame(s: State, l: Label)
    requires Shape(s) && Enabled(s, l) && ByWorker(l)
    ensures WorkerOnly(s, Effect(s, l), l.w)
  {
    if InExecute(l) {
      ExecuteFrame(s, l);
    } else {
      LoopFrame(s, l);
    }
  }

  lemma CleanupFrame(s: State, l: Label)
    requires Shape(s) && Enabled(s, l) && ByCleanup(l)
    ensures var t := Effect(s, l); t == s.(quit := t.quit, posts := t.posts, sem := t.sem)
  {
  }

  /** No command moved. */
  ghost predicate SameWork(s: State, t: State) { t.slots == s.slots && t.log == s.log && t.fate == s.fate }

  lemma OutsideMovesNoWork(s: State, l: Label)
    requires Shape(s) && Enabled(s, l) && ByProducer(l) && !InQueueCmd(l)
    ensures SameWork(s, Effect(s, l))
  {
  }

  lemma LoopMovesNoWork(s: State, l: Label)
    requires Shape(s) && Enabled(s, l) && ByWorker(l) && !InExecute(l)
    ensures SameWork(s, Effect(s, l))
  {
  }

  lemma NoWorkMoves(s: State, l: Label)
    requires Shape(s) && Enabled(s, l) && !InQueueCmd(l) && !InExecute(l)
    ensures SameWork(s, Effect(s, l)) && (ByWorker(l) || Effect(s, l).workers == s.workers)
  {
    if ByMonitor(l) {
      MonitorFrame(s, l);
    } else if ByProducer(l) {
      OutsideMovesNoWork(s, l);
      ProducerFrame(s, l);
    } else if ByWorker(l) {
      LoopMovesNoWork(s, l);
    } else {
      CleanupFrame(s, l);
    }
  }

  // ---------------------------------------------------------------- shape

  lemma KeepShapeByMonitor(s: State, l: Label)
    requires Shape(s) && Enabled(s, l) && ByMonitor(l)
    ensures Shape(Effect(s, l))
  {
  }

  lemma KeepShapeInside(s: State, l: Label)
    requires Shape(s) && Enabled(s, l) && InQueueCmd(l)
    ensures Shape(Effect(s, l))
  {
  }

  lemma KeepShapeOutside(s: State, l: Label)
    requires Shape(s) && Enabled(s, l) && ByProducer(l) && !InQueueCmd(l)
    ensures Shape(Effect(s, l))
  {
  }

  lemma KeepShapeInExecute(s: State, l: Label)
    requires Shape(s) && Enabled(s, l) && InExecute(l)
    ensures Shape(Effect(s, l))
  {
  }

  lemma KeepShapeInLoop(s: State, l: Label)
    requires Shape(s) && Enabled(s, l) && ByWorker(l) && !InExecute(l)
    ensures Shape(Effect(s, l))
  {
  }

  lemma KeepShape(s: State, l: Label)
    requires Shape(s) && Enabled(s, l)
    ensures Shape(Effect(s, l))
  {
    if ByMonitor(l) {
      KeepShapeByMonitor(s, l);
    } else if InQueueCmd(l) {
      KeepShapeInside(s, l);
    } else if ByProducer(l) {
      KeepShapeOutside(s, l);
    } else if InExecute(l) {
      KeepShapeInExecute(s, l);
    } else if ByWorker(l) {
      KeepShapeInLoop(s, l);
    }
  }

  /** Writing one lane leaves the others as they were. */
  lemma LaneFrame(slots: map<Slot, Lane>, slots': map<Slot, Lane>, k0: Slot)
    requires slots' == slots[k0 := LaneOf(slots', k0)]
    ensures forall k :: k != k0 ==> LaneOf(slots', k) == LaneOf(slots, k)
  {
  }

  lemma WhereUpdate<T>(list: seq<T>, i: nat, x: T, f: T -> bool)
    requires i < |list|
    ensures Where(list[i := x], f) == Where(list, f) - {i} + (if f(x) then {i} else {})
    ensures |Where(list[i := x], f)| == |Where(list, f)| - (if f(list[i]) then 1 else 0) + (if f(x) then 1 else 0)
  {
    assert Where(list[i := x], f) == Where(list, f) - {i} + (if f(x) then {i} else {});
  }

  lemma TailMembers<T>(list: seq<T>)
    requires list != [] && NoDup(list)
    ensures NoDup(list[1..]) && list[0] !in list[1..]
    ensures forall x :: x in list[1..] <==> x in list && x != list[0]
  {
    forall x | x in list && x != list[0] ensures x in list[1..] {
      var i :| 0 <= i < |list| && list[i] == x;
      assert list[1..][i - 1] == x;
    }
  }

  // ---------------------------------------------------------------- locks

  ghost predicate Locks(s: State) {
    && (forall k | LaneOf(s.slots, k).lock.Some? ::
          var p := LaneOf(s.slots, k).lock.value;
          p < |s.producers| && InRegion(s.producers[p], k))
    && (forall p | 0 <= p < |s.producers| && s.producers[p].At? && !s.producers[p].phase.Ready? ::
          LaneOf(s.slots, ProducerSlot(s.producers[p])).lock == Some(p))
  }

  lemma KeepLocksPush(s: State, p: nat, q: Queue, c: Cmd)
    requires Shape(s) && Locks(s) && Enabled(s, Push(p, q, c))
    ensures Locks(AfterPush(s, p, q, c))
  {
    var k := Slot(s.producers[p].dev, q);
    LaneFrame(s.slots, AfterPush(s, p, q, c).slots, k);
  }

  lemma KeepLocksUnlock(s: State, p: nat)
    requires Shape(s) && Locks(s) && Enabled(s, Unlock(p))
    ensures Locks(AfterUnlock(s, p))
  {
    var k := ProducerSlot(s.producers[p]);
    LaneFrame(s.slots, AfterUnlock(s, p).slots, k);
  }

  lemma KeepLocksTake(s: State, w: nat)
    requires Shape(s) && Locks(s) && Enabled(s, Take(w))
    ensures Locks(AfterTake(s, w))
  {
    var k := WorkerSlot(s.workers[w]);
    LaneFrame(s.slots, AfterTake(s, w).slots, k);
  }

  /** A producer moved without entering or leaving a locked region. */
  lemma KeepLocksProducer(s: State, p: nat, t: State)
    requires Locks(s) && p < |s.producers| == |t.producers| && t.slots == s.slots
    requires t.producers == s.producers[p := t.producers[p]]
    requires forall k :: InRegion(t.producers[p], k) <==> InRegion(s.producers[p], k)
    ensures Locks(t)
  {
    var pr := t.producers[p];
    if pr.At? && !pr.phase.Ready? {
      assert InRegion(pr, ProducerSlot(pr));
    }
  }

  lemma KeepLocksInside(s: State, l: Label)
    requires Shape(s) && Locks(s) && Enabled(s, l) && InQueueCmd(l)
    ensures Locks(Effect(s, l))
  {
    if l.Push? {
      KeepLocksPush(s, l.p, l.queue, l.cmd);
    } else if l.Unlock? {
      KeepLocksUnlock(s, l.p);
    } else {
      KeepLocksProducer(s, l.p, Effect(s, l));
    }
  }

  lemma KeepLocksOutside(s: State, l: Label)
    requires Shape(s) && Locks(s) && Enabled(s, l) && ByProducer(l) && !InQueueCmd(l)
    ensures Locks(Effect(s, l))
  {
    KeepLocksProducer(s, l.p, Effect(s, l));
  }

  lemma KeepLocksInExecute(s: State, l: Label)
    requires Shape(s) && Locks(s) && Enabled(s, l) && InExecute(l)
    ensures Locks(Effect(s, l))
  {
    if l.Take? {
      KeepLocksTake(s, l.w);
    } else {
      KeepLocksFrame(s, Effect(s, l));
    }
  }

  lemma KeepLocksInLoop(s: State, l: Label)
    requires Shape(s) && Locks(s) && Enabled(s, l) && ByWorker(l) && !InExecute(l)
    ensures Locks(Effect(s, l))
  {
    KeepLocksFrame(s, Effect(s, l));
  }

  lemma KeepLocksFrame(s: State, t: State)
    requires Locks(s) && t.slots == s.slots && t.producers == s.producers
    ensures Locks(t)
  {
  }

  lemma KeepLocks(s: State, l: Label)
    requires Shape(s) && Locks(s) && Enabled(s, l)
    ensures Locks(Effect(s, l))
  {
    if InQueueCmd(l) {
      KeepLocksInside(s, l);
    } else if ByProducer(l) {
      KeepLocksOutside(s, l);
    } else if InExecute(l) {
      KeepLocksInExecute(s, l);
    } else if ByWorker(l) {
      KeepLocksInLoop(s, l);
    } else if ByMonitor(l) {
      KeepLocksByMonitor(s, l);
    } else {
      KeepLocksByCleanup(s, l);
    }
  }

  lemma KeepLocksByMonitor(s: State, l: Label)
    requires Shape(s) && Locks(s) && Enabled(s, l) && ByMonitor(l)
    ensures Locks(Effect(s, l))
  {
    KeepLocksFrame(s, Effect(s, l));
  }

  lemma KeepLocksByCleanup(s: State, l: Label)
    requires Shape(s) && Locks(s) && Enabled(s, l) && ByCleanup(l)
    ensures Locks(Effect(s, l))
  {
    KeepLocksFrame(s, Effect(s, l));
  }

  // ---------------------------------------------------------------- one token per busy slot

  function Servers(workers: seq<Worker>, k: Slot): set<nat> {
    Where(workers, (wk: Worker) => Serves(wk, k))
  }

  lemma ServersUpdate(workers: seq<Worker>, w: nat, wk: Worker)
    requires w < |workers|
    ensures forall k :: Servers(workers[w := wk], k)
                     == Servers(workers, k) - {w} + (if Serves(wk, k) then {w} else {})
  {
  }

  /** Between the push of `QueueCmd` and the list insertion of `Request`. */
  ghost predicate InWindow(s: State, k: Slot) {
    LaneOf(s.slots, k).lock.Some? && ProducerAt(s, LaneOf(s.slots, k).lock.value, Pushed)
  }

  ghost predicate InList(s: State, k: Slot)
    requires Shape(s)
  {
    k.dev in s.exec[k.queue]
  }

  ghost predicate SlotOk(s: State, k: Slot)
    requires Shape(s)
  {
    var lane := LaneOf(s.slots, k);
    var sv := Servers(s.workers, k);
    if InWindow(s, k) then |lane.cmds| == 1 && !lane.running && !InList(s, k) && sv == {}
    else if InList(s, k) then lane.cmds != [] && !lane.running && sv == {}
    else if sv == {} then lane.cmds == [] && !lane.running
    else
      && (forall a, b | a in sv && b in sv :: a == b)
      && (forall w | w in sv ::
            if s.workers[w].pc.Popped? then lane.cmds != [] && !lane.running else lane.running)
  }

  ghost predicate Tokens(s: State)
    requires Shape(s)
  {
    && (forall q: Queue :: NoDup(s.exec[q]))
    && (forall k :: SlotOk(s, k))
  }

  lemma KeepTokensPush(s: State, p: nat, q: Queue, c: Cmd)
    requires Shape(s) && Locks(s) && Tokens(s) && Enabled(s, Push(p, q, c))
    ensures Tokens(AfterPush(s, p, q, c))
  {
    var t := AfterPush(s, p, q, c);
    var k0 := Slot(s.producers[p].dev, q);
    LaneFrame(s.slots, t.slots, k0);
    forall k ensures SlotOk(t, k) { assert SlotOk(s, k); }
  }

  lemma KeepTokensRequest(s: State, p: nat)
    requires Shape(s) && Locks(s) && Tokens(s) && Enabled(s, Request(p))
    ensures Tokens(AfterRequest(s, p))
    ensures s.producers[p].dev !in s.exec[s.producers[p].queue]
  {
    var t := AfterRequest(s, p);
    assert SlotOk(s, ProducerSlot(s.producers[p]));
    forall k ensures SlotOk(t, k) { assert SlotOk(s, k); }
  }

  lemma KeepTokensUnlock(s: State, p: nat)
    requires Shape(s) && Locks(s) && Tokens(s) && Enabled(s, Unlock(p))
    ensures Tokens(AfterUnlock(s, p))
  {
    var t := AfterUnlock(s, p);
    var k0 := ProducerSlot(s.producers[p]);
    LaneFrame(s.slots, t.slots, k0);
    forall k ensures SlotOk(t, k) { assert SlotOk(s, k); }
  }

  lemma SlotCarry(s: State, t: State, k: Slot)
    requires Shape(s) && Shape(t) && SlotOk(s, k)
    requires LaneOf(t.slots, k) == LaneOf(s.slots, k) && t.producers == s.producers
    requires InList(t, k) == InList(s, k) && Servers(t.workers, k) == Servers(s.workers, k)
    requires forall w | w in Servers(s.workers, k) :: t.workers[w] == s.workers[w]
    ensures SlotOk(t, k)
  {
  }

  /** A worker moved, but serves the same slot in the same way as before. */
  lemma KeepTokensWorker(s: State, w: nat, t: State)
    requires Shape(s) && Tokens(s) && WorkerAt(s, w) && |t.workers| == |s.workers|
    requires t.slots == s.slots && t.exec == s.exec && t.producers == s.producers && Shape(t)
    requires t.workers == s.workers[w := t.workers[w]] && t.workers[w].queue == s.workers[w].queue
    requires !s.workers[w].pc.Popped? && !t.workers[w].pc.Popped?
    requires forall k :: Serves(s.workers[w], k) <==> Serves(t.workers[w], k)
    ensures Tokens(t)
  {
    ServersUpdate(s.workers, w, t.workers[w]);
    forall k ensures SlotOk(t, k) { assert SlotOk(s, k); }
  }

  /** The slot of the device that is popped, and any other slot. */
  lemma FetchOwnSlot(s: State, w: nat)
    requires Shape(s) && Tokens(s) && WorkerAt(s, w) && s.exec[s.workers[w].queue] != []
    requires s.workers[w].pc == AtList
    ensures SlotOk(AfterFetch(s, w), Slot(s.exec[s.workers[w].queue][0], s.workers[w].queue))
  {
    var q := s.workers[w].queue;
    var k0 := Slot(s.exec[q][0], q);
    TailMembers(s.exec[q]);
    ServersUpdate(s.workers, w, AfterFetch(s, w).workers[w]);
    assert SlotOk(s, k0) && InList(s, k0);
  }

  lemma FetchOtherSlot(s: State, w: nat, k: Slot)
    requires Shape(s) && Tokens(s) && WorkerAt(s, w) && s.exec[s.workers[w].queue] != []
    requires s.workers[w].pc == AtList && k != Slot(s.exec[s.workers[w].queue][0], s.workers[w].queue)
    ensures SlotOk(AfterFetch(s, w), k)
  {
    var t := AfterFetch(s, w);
    TailMembers(s.exec[s.workers[w].queue]);
    ServersUpdate(s.workers, w, t.workers[w]);
    assert Servers(t.workers, k) == Servers(s.workers, k);
    SlotCarry(s, t, k);
  }

  lemma KeepTokensFetch(s: State, w: nat)
    requires Shape(s) && Tokens(s) && Enabled(s, Fetch(w))
    ensures Tokens(AfterFetch(s, w))
  {
    var q := s.workers[w].queue;
    if s.exec[q] == [] {
      KeepTokensWorker(s, w, AfterFetch(s, w));
    } else {
      TailMembers(s.exec[q]);
      FetchOwnSlot(s, w);
      forall k | k != Slot(s.exec[q][0], q) ensures SlotOk(AfterFetch(s, w), k) {
        FetchOtherSlot(s, w, k);
      }
    }
  }

  lemma TakeOwnSlot(s: State, w: nat)
    requires Shape(s) && Tokens(s) && WorkerAt(s, w) && (s.workers[w].pc.Popped? || s.workers[w].pc.Relock?)
    ensures SlotOk(AfterTake(s, w), WorkerSlot(s.workers[w]))
  {
    var t := AfterTake(s, w);
    var k0 := WorkerSlot(s.workers[w]);
    ServersUpdate(s.workers, w, t.workers[w]);
    assert SlotOk(s, k0) && w in Servers(s.workers, k0);
  }

  lemma TakeOtherSlot(s: State, w: nat, k: Slot)
    requires Shape(s) && Tokens(s) && WorkerAt(s, w) && (s.workers[w].pc.Popped? || s.workers[w].pc.Relock?)
    requires k != WorkerSlot(s.workers[w])
    ensures SlotOk(AfterTake(s, w), k)
  {
    var t := AfterTake(s, w);
    LaneFrame(s.slots, t.slots, WorkerSlot(s.workers[w]));
    ServersUpdate(s.workers, w, t.workers[w]);
    assert Servers(t.workers, k) == Servers(s.workers, k);
    assert t.workers == s.workers[w := t.workers[w]] && InList(t, k) == InList(s, k);
    SlotCarry(s, t, k);
  }

  lemma KeepTokensTake(s: State, w: nat)
    requires Shape(s) && Tokens(s) && Enabled(s, Take(w))
    ensures Tokens(AfterTake(s, w))
  {
    TakeOwnSlot(s, w);
    forall k | k != WorkerSlot(s.workers[w]) ensures SlotOk(AfterTake(s, w), k) {
      TakeOtherSlot(s, w, k);
    }
  }

  /** No lane, list or worker moved, and no producer entered or left the window. */
  lemma KeepTokensFrame(s: State, t: State)
    requires Shape(s) && Tokens(s) && Shape(t)
    requires t.slots == s.slots && t.exec == s.exec && t.workers == s.workers
    requires forall p :: ProducerAt(t, p, Pushed) <==> ProducerAt(s, p, Pushed)
    ensures Tokens(t)
  {
    forall k ensures SlotOk(t, k) { assert SlotOk(s, k); }
  }

  lemma KeepTokensByProducer(s: State, l: Label)
    requires Shape(s) && Locks(s) && Tokens(s) && Enabled(s, l) && ByProducer(l)
    ensures Shape(Effect(s, l)) && Tokens(Effect(s, l))
  {
    KeepShape(s, l);
    if l.Push? {
      KeepTokensPush(s, l.p, l.queue, l.cmd);
    } else if l.Request? {
      KeepTokensRequest(s, l.p);
    } else if l.Unlock? {
      KeepTokensUnlock(s, l.p);
    } else {
      KeepTokensFrame(s, Effect(s, l));
    }
  }

  lemma KeepTokensByWorker(s: State, l: Label)
    requires Shape(s) && Tokens(s) && Enabled(s, l) && ByWorker(l)
    ensures Shape(Effect(s, l)) && Tokens(Effect(s, l))
  {
    KeepShape(s, l);
    if l.Fetch? {
      KeepTokensFetch(s, l.w);
    } else if l.Take? {
      KeepTokensTake(s, l.w);
    } else {
      KeepTokensWorker(s, l.w, Effect(s, l));
    }
  }

  lemma KeepTokensByMonitor(s: State, l: Label)
    requires Shape(s) && Tokens(s) && Enabled(s, l) && ByMonitor(l)
    ensures Shape(Effect(s, l)) && Tokens(Effect(s, l))
  {
    KeepShape(s, l);
    KeepTokensFrame(s, Effect(s, l));
  }

  lemma KeepTokensByCleanup(s: State, l: Label)
    requires Shape(s) && Tokens(s) && Enabled(s, l) && ByCleanup(l)
    ensures Shape(Effect(s, l)) && Tokens(Effect(s, l))
  {
    KeepShape(s, l);
    KeepTokensFrame(s, Effect(s, l));
  }

  lemma KeepTokens(s: State, l: Label)
    requires Shape(s) && Locks(s) && Tokens(s) && Enabled(s, l)
    ensures Shape(Effect(s, l)) && Tokens(Effect(s, l))
  {
    if ByProducer(l) {
      KeepTokensByProducer(s, l);
    } else if ByWorker(l) {
      KeepTokensByWorker(s, l);
    } else if ByMonitor(l) {
      KeepTokensByMonitor(s, l);
    } else {
      KeepTokensByCleanup(s, l);
    }
  }
}
