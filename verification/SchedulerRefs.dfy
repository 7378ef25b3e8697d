/** Reference counts: at every moment a device's count is the number of its holders, which are the two
    registries, the lists, the workers and the callers, and when the last one lets go no command is queued on
    the device any more. So the destructor finds nothing to cancel. */
module SchedulerRefs {
  import opened Basics
  import opened Scheduler
  import opened SchedulerInvariant

  /** References the monitor's list and the list of `DeviceCenter` account for. */
  function RegistryRefs(stage: Stage): nat {
    match stage
    case New => 1
    case Inserted => 1
    case Attached => 2
    case Erased => 2
    case CenterReleased => 1
    case Unborn => 0
    case Gone => 0
  }

  predicate WorkerHolds(wk: Worker, d: nat) {
    (wk.pc.Popped? || wk.pc.Serving? || wk.pc.Relock? || wk.pc.Releasing?) && wk.pc.dev == d
  }

  predicate ProducerHolds(pr: Producer, d: nat) { pr.At? && pr.counted && pr.dev == d }

  function ListRefs(exec: seq<seq<nat>>, d: nat): set<nat> { Where(exec, (list: seq<nat>) => d in list) }

  function WorkerRefs(workers: seq<Worker>, d: nat): set<nat> {
    Where(workers, (wk: Worker) => WorkerHolds(wk, d))
  }

  function ProducerRefs(producers: seq<Producer>, d: nat): set<nat> {
    Where(producers, (pr: Producer) => ProducerHolds(pr, d))
  }

  /** All holders of a device: registries, list entries, workers and counted callers. */
  function Holders(s: State, d: nat): nat {
    RegistryRefs(DevOf(s.devs, d).stage)
    + |ListRefs(s.exec, d)| + |WorkerRefs(s.workers, d)| + |ProducerRefs(s.producers, d)|
  }

  ghost predicate Borrowers(s: State) {
    forall p | 0 <= p < |s.producers| ::
      s.producers[p].At? && !s.producers[p].counted ==> Listed(DevOf(s.devs, s.producers[p].dev).stage)
  }

  /** `owed` is the device whose Release is still due within the current step. */
  ghost predicate Counted(s: State, owed: Option<nat>) {
    forall d: nat :: DevOf(s.devs, d).refs == Holders(s, d) + (if owed == Some(d) then 1 else 0) as int
  }

  ghost predicate Lifetimes(s: State) {
    forall d: nat ::
      var dev := DevOf(s.devs, d);
      && (dev.stage == Unborn ==> dev.refs == 0)
      && dev.destroyed == (if dev.stage == Gone && dev.refs == 0 then 1 else 0)
  }

  lemma DevFrame(devs: map<nat, Device>, devs': map<nat, Device>, d0: nat)
    requires devs' == devs[d0 := DevOf(devs', d0)]
    ensures forall d: nat :: d != d0 ==> DevOf(devs', d) == DevOf(devs, d)
  {
  }

  lemma WorkerMove(workers: seq<Worker>, w: nat, wk: Worker, d: nat)
    requires w < |workers|
    ensures |WorkerRefs(workers[w := wk], d)| - |WorkerRefs(workers, d)|
         == (if WorkerHolds(wk, d) then 1 else 0) - (if WorkerHolds(workers[w], d) then 1 else 0)
  {
    WhereUpdate(workers, w, wk, (wk: Worker) => WorkerHolds(wk, d));
  }

  lemma ProducerMove(producers: seq<Producer>, p: nat, pr: Producer, d: nat)
    requires p < |producers|
    ensures |ProducerRefs(producers[p := pr], d)| - |ProducerRefs(producers, d)|
         == (if ProducerHolds(pr, d) then 1 else 0) - (if ProducerHolds(producers[p], d) then 1 else 0)
  {
    WhereUpdate(producers, p, pr, (pr: Producer) => ProducerHolds(pr, d));
  }

  lemma ListMove(exec: seq<seq<nat>>, q: nat, list: seq<nat>, d: nat)
    requires q < |exec|
    ensures |ListRefs(exec[q := list], d)| - |ListRefs(exec, d)|
         == (if d in list then 1 else 0) - (if d in exec[q] then 1 else 0)
  {
    WhereUpdate(exec, q, list, (list: seq<nat>) => d in list);
  }

  lemma KeepCountedRequest(s: State, p: nat)
    requires Shape(s) && Locks(s) && Tokens(s) && Counted(s, None) && Enabled(s, Request(p))
    ensures Counted(AfterRequest(s, p), None)
  {
    var t := AfterRequest(s, p);
    var q := s.producers[p].queue;
    KeepTokensRequest(s, p);
    DevFrame(s.devs, t.devs, s.producers[p].dev);
    forall d: nat ensures DevOf(t.devs, d).refs == Holders(t, d) {
      ProducerMove(s.producers, p, t.producers[p], d);
      ListMove(s.exec, q, t.exec[q], d);
    }
  }

  lemma KeepCountedFetch(s: State, w: nat)
    requires Shape(s) && Tokens(s) && Counted(s, None) && Enabled(s, Fetch(w))
    ensures Counted(AfterFetch(s, w), None)
  {
    var q := s.workers[w].queue;
    if s.exec[q] == [] {
      KeepCountedWorker(s, w, AfterFetch(s, w), None);
    } else {
      KeepCountedPop(s, w);
    }
  }

  lemma KeepCountedPop(s: State, w: nat)
    requires Shape(s) && Tokens(s) && Counted(s, None) && WorkerAt(s, w) && s.workers[w].pc == AtList
    requires s.exec[s.workers[w].queue] != []
    ensures Counted(AfterFetch(s, w), None)
  {
    var t := AfterFetch(s, w);
    var q := s.workers[w].queue;
    TailMembers(s.exec[q]);
    forall d: nat ensures DevOf(t.devs, d).refs == Holders(t, d) {
      WorkerMove(s.workers, w, t.workers[w], d);
      ListMove(s.exec, q, t.exec[q], d);
    }
  }

  /** A worker moved; the device it lets go of, if any, is owed a Release. */
  lemma KeepCountedWorker(s: State, w: nat, t: State, owed: Option<nat>)
    requires Shape(s) && Counted(s, None) && w < |s.workers| == |t.workers|
    requires t.devs == s.devs && t.exec == s.exec && t.producers == s.producers
    requires t.workers == s.workers[w := t.workers[w]]
    requires forall d: nat :: WorkerHolds(s.workers[w], d) <==> WorkerHolds(t.workers[w], d) || owed == Some(d)
    requires forall d: nat :: WorkerHolds(t.workers[w], d) ==> owed != Some(d)
    ensures Counted(t, owed)
  {
    forall d: nat ensures DevOf(t.devs, d).refs == Holders(t, d) + (if owed == Some(d) then 1 else 0) as int {
      WorkerMove(s.workers, w, t.workers[w], d);
    }
  }

  lemma KeepCountedProducer(s: State, p: nat, t: State, owed: Option<nat>)
    requires Shape(s) && Counted(s, None) && p < |s.producers| == |t.producers|
    requires t.devs == s.devs && t.exec == s.exec && t.workers == s.workers
    requires t.producers == s.producers[p := t.producers[p]]
    requires forall d: nat :: ProducerHolds(s.producers[p], d) <==> ProducerHolds(t.producers[p], d) || owed == Some(d)
    requires forall d: nat :: ProducerHolds(t.producers[p], d) ==> owed != Some(d)
    ensures Counted(t, owed)
  {
    forall d: nat ensures DevOf(t.devs, d).refs == Holders(t, d) + (if owed == Some(d) then 1 else 0) as int {
      ProducerMove(s.producers, p, t.producers[p], d);
    }
  }

  lemma KeepCountedGet(s: State, p: nat, d0: nat)
    requires Shape(s) && Counted(s, None) && Enabled(s, Get(p, d0))
    ensures Counted(Effect(s, Get(p, d0)), None)
  {
    var t := Effect(s, Get(p, d0));
    DevFrame(s.devs, t.devs, d0);
    forall d: nat ensures DevOf(t.devs, d).refs == Holders(t, d) {
      ProducerMove(s.producers, p, t.producers[p], d);
    }
  }

  lemma KeepCountedMonitor(s: State, l: Label)
    requires Shape(s) && Counted(s, None) && Enabled(s, l) && ByMonitor(l)
    ensures Counted(Effect(s, l), Drops(s, l))
  {
    var t := Effect(s, l);
    DevFrame(s.devs, t.devs, l.dev);
    forall d: nat ensures DevOf(t.devs, d).refs == Holders(t, d) + (if Drops(s, l) == Some(d) then 1 else 0) as int {
      assert DevOf(s.devs, d).refs == Holders(s, d);
    }
  }

  lemma KeepCountedInExecute(s: State, l: Label)
    requires Shape(s) && Counted(s, None) && Enabled(s, l) && InExecute(l)
    ensures Counted(Effect(s, l), Drops(s, l))
  {
    KeepCountedWorker(s, l.w, Effect(s, l), Drops(s, l));
  }

  lemma KeepCountedInLoop(s: State, l: Label)
    requires Shape(s) && Tokens(s) && Counted(s, None) && Enabled(s, l) && ByWorker(l) && !InExecute(l)
    ensures Counted(Effect(s, l), Drops(s, l))
  {
    if l.Fetch? {
      KeepCountedFetch(s, l.w);
    } else {
      KeepCountedWorker(s, l.w, Effect(s, l), Drops(s, l));
    }
  }

  lemma KeepCountedByProducer(s: State, l: Label)
    requires Shape(s) && Locks(s) && Tokens(s) && Counted(s, None) && Enabled(s, l) && ByProducer(l)
    ensures Counted(Effect(s, l), Drops(s, l))
  {
    if l.Request? {
      KeepCountedRequest(s, l.p);
    } else if l.Get? {
      KeepCountedGet(s, l.p, l.dev);
    } else {
      KeepCountedProducer(s, l.p, Effect(s, l), Drops(s, l));
    }
  }

  lemma KeepCountedByCleanup(s: State, l: Label)
    requires Shape(s) && Counted(s, None) && Enabled(s, l) && ByCleanup(l)
    ensures Counted(Effect(s, l), Drops(s, l))
  {
    var t := Effect(s, l);
    forall d: nat ensures DevOf(t.devs, d).refs == Holders(t, d) {
      assert DevOf(s.devs, d).refs == Holders(s, d);
    }
  }

  lemma KeepCounted(s: State, l: Label)
    requires Shape(s) && Locks(s) && Tokens(s) && Counted(s, None) && Enabled(s, l)
    ensures Counted(Effect(s, l), Drops(s, l))
  {
    if ByMonitor(l) {
      KeepCountedMonitor(s, l);
    } else if InExecute(l) {
      KeepCountedInExecute(s, l);
    } else if ByWorker(l) {
      KeepCountedInLoop(s, l);
    } else if ByProducer(l) {
      KeepCountedByProducer(s, l);
    } else {
      KeepCountedByCleanup(s, l);
    }
  }

  lemma KeepBorrowersByMonitor(s: State, l: Label)
    requires Shape(s) && Borrowers(s) && Enabled(s, l) && ByMonitor(l)
    ensures Borrowers(Effect(s, l))
  {
    DevFrame(s.devs, Effect(s, l).devs, l.dev);
  }

  lemma KeepBorrowersByProducer(s: State, l: Label)
    requires Shape(s) && Borrowers(s) && Enabled(s, l) && ByProducer(l)
    ensures Borrowers(Effect(s, l))
  {
    ProducerFrame(s, l);
    if InQueueCmd(l) {
      InsideStays(s, l);
    } else {
      OutsideStays(s, l);
    }
    KeepBorrowersProducer(s, l.p, Effect(s, l));
  }

  /** A caller that is somewhere stays with its device; one that comes with a borrowed one finds it listed. */
  ghost predicate Stays(s: State, t: State, p: nat)
    requires p < |s.producers| && p < |t.producers|
  {
    && (forall d: nat :: DevOf(t.devs, d).stage == DevOf(s.devs, d).stage)
    && var pr, pr' := s.producers[p], t.producers[p];
       pr'.At? ==> if pr.At? then pr'.dev == pr.dev && pr'.counted == pr.counted
                   else pr'.counted || Listed(DevOf(s.devs, pr'.dev).stage)
  }

  lemma RequestStays(s: State, p: nat)
    requires Shape(s) && ProducerAt(s, p, Pushed)
    ensures |AfterRequest(s, p).producers| == |s.producers| && Stays(s, AfterRequest(s, p), p)
  {
    DevFrame(s.devs, AddRef(s, s.producers[p].dev).devs, s.producers[p].dev);
  }

  lemma InsideStays(s: State, l: Label)
    requires Shape(s) && Enabled(s, l) && InQueueCmd(l)
    ensures |Effect(s, l).producers| == |s.producers| && Stays(s, Effect(s, l), l.p)
  {
    if l.Request? {
      RequestStays(s, l.p);
    } else {
      assert Effect(s, l).devs == s.devs;
    }
  }

  lemma OutsideStays(s: State, l: Label)
    requires Shape(s) && Enabled(s, l) && ByProducer(l) && !InQueueCmd(l)
    ensures |Effect(s, l).producers| == |s.producers| && Stays(s, Effect(s, l), l.p)
  {
  }

  lemma KeepBorrowersProducer(s: State, p: nat, t: State)
    requires Borrowers(s) && ProducerOnly(s, t, p) && Stays(s, t, p)
    ensures Borrowers(t)
  {
  }

  lemma KeepBorrowersFrame(s: State, t: State)
    requires Borrowers(s) && t.producers == s.producers && t.devs == s.devs
    ensures Borrowers(t)
  {
  }

  lemma KeepBorrowers(s: State, l: Label)
    requires Shape(s) && Borrowers(s) && Enabled(s, l)
    ensures Borrowers(Effect(s, l))
  {
    if ByMonitor(l) {
      KeepBorrowersByMonitor(s, l);
    } else if ByProducer(l) {
      KeepBorrowersByProducer(s, l);
    } else if ByWorker(l) {
      WorkerFrame(s, l);
      KeepBorrowersFrame(s, Effect(s, l));
    } else {
      CleanupFrame(s, l);
      KeepBorrowersFrame(s, Effect(s, l));
    }
  }

  // ---------------------------------------------------------------- the last release

  /** A device nobody holds has nothing queued, so its destructor has nothing to cancel. */
  lemma NothingQueued(s: State, d: nat)
    requires Shape(s) && Locks(s) && Tokens(s) && Borrowers(s) && Holders(s, d) == 0
    ensures forall q: Queue :: LaneOf(s.slots, Slot(d, q)).cmds == [] && !LaneOf(s.slots, Slot(d, q)).running
  {
    assert ListRefs(s.exec, d) == {} && WorkerRefs(s.workers, d) == {} && ProducerRefs(s.producers, d) == {};
    forall q: Queue ensures LaneOf(s.slots, Slot(d, q)).cmds == [] && !LaneOf(s.slots, Slot(d, q)).running {
      var k := Slot(d, q);
      assert SlotOk(s, k);
      assert !InList(s, k) by { assert q !in ListRefs(s.exec, d); }
      assert Servers(s.workers, k) <= WorkerRefs(s.workers, d);
      assert !InWindow(s, k) by {
        assert forall p :: 0 <= p < |s.producers| && InRegion(s.producers[p], k) ==>
                 p in ProducerRefs(s.producers, d) || !s.producers[p].counted;
      }
    }
  }

  /** What a step does to the device records once the due Release is included. */
  function DevsAfter(t: State, owed: Option<nat>): map<nat, Device> {
    match owed
    case None => t.devs
    case Some(d) =>
      var dev := DevOf(t.devs, d);
      t.devs[d := dev.(refs := dev.refs - 1,
                       destroyed := if dev.refs == 1 then dev.destroyed + 1 else dev.destroyed)]
  }

  /** The destructor's flush never cancels anything. */
  lemma ReleaseCancelsNothing(t: State, d: nat)
    requires Shape(t) && Locks(t) && Tokens(t) && Borrowers(t) && Counted(t, Some(d))
    ensures ReleaseRef(t, d) == t.(devs := DevsAfter(t, Some(d)))
  {
    assert DevOf(t.devs, d).refs == Holders(t, d) + 1;
    if DevOf(t.devs, d).refs == 1 {
      NothingQueued(t, d);
      assert LaneOf(t.slots, Slot(d, 0)).cmds == [] && LaneOf(t.slots, Slot(d, 1)).cmds == [];
      assert LaneOf(t.slots, Slot(d, 2)).cmds == [] && LaneOf(t.slots, Slot(d, 3)).cmds == [];
    }
  }

  /** So a whole step is its effect plus the count. */
  lemma FlushCancelsNothing(s: State, l: Label)
    requires Shape(s) && Locks(s) && Tokens(s) && Counted(s, None) && Borrowers(s) && Enabled(s, l)
    ensures Next(s, l) == Effect(s, l).(devs := DevsAfter(Effect(s, l), Drops(s, l)))
  {
    KeepLocks(s, l);
    KeepTokens(s, l);
    KeepCounted(s, l);
    KeepBorrowers(s, l);
    if Drops(s, l).Some? {
      ReleaseCancelsNothing(Effect(s, l), Drops(s, l).value);
    }
  }

  ghost predicate Refs(s: State) { Counted(s, None) && Borrowers(s) && Lifetimes(s) }

  /** Whoever is inside `QueueCmd` keeps the device alive. */
  lemma CallerKeepsAlive(s: State, p: nat)
    requires Counted(s, None) && Borrowers(s) && p < |s.producers| && s.producers[p].At?
    ensures DevOf(s.devs, s.producers[p].dev).refs > 0
  {
    var d := s.producers[p].dev;
    assert DevOf(s.devs, d).refs == Holders(s, d);
    if s.producers[p].counted {
      assert p in ProducerRefs(s.producers, d);
    }
  }

  lemma KeepLifetimesRequest(s: State, p: nat)
    requires Shape(s) && Refs(s) && Enabled(s, Request(p))
    ensures Lifetimes(AfterRequest(s, p))
  {
    var pr := s.producers[p];
    if pr.dev !in s.exec[pr.queue] {
      DevFrame(s.devs, AfterRequest(s, p).devs, pr.dev);
      CallerKeepsAlive(s, p);
    }
  }

  lemma KeepLifetimesMonitor(s: State, l: Label)
    requires Shape(s) && Refs(s) && Enabled(s, l) && (ByMonitor(l) || l.Get?)
    ensures Lifetimes(Effect(s, l))
  {
    assert DevOf(s.devs, l.dev).refs == Holders(s, l.dev);
    DevFrame(s.devs, Effect(s, l).devs, l.dev);
  }

  lemma KeepLifetimesFrame(s: State, t: State)
    requires Lifetimes(s) && t.devs == s.devs
    ensures Lifetimes(t)
  {
  }

  lemma KeepLifetimesByProducer(s: State, l: Label)
    requires Shape(s) && Refs(s) && Enabled(s, l) && ByProducer(l)
    ensures Lifetimes(Effect(s, l))
  {
    if l.Get? {
      KeepLifetimesMonitor(s, l);
    } else if l.Request? {
      KeepLifetimesRequest(s, l.p);
    } else {
      KeepLifetimesFrame(s, Effect(s, l));
    }
  }

  lemma KeepLifetimes(s: State, l: Label)
    requires Shape(s) && Refs(s) && Enabled(s, l)
    ensures Lifetimes(Effect(s, l))
  {
    if ByMonitor(l) {
      KeepLifetimesMonitor(s, l);
    } else if ByProducer(l) {
      KeepLifetimesByProducer(s, l);
    } else if ByWorker(l) {
      WorkerFrame(s, l);
      KeepLifetimesFrame(s, Effect(s, l));
    } else {
      CleanupFrame(s, l);
      KeepLifetimesFrame(s, Effect(s, l));
    }
  }

  /** Once the due Release is done, count and life agree again. */
  lemma Settle(t: State, owed: Option<nat>)
    requires Counted(t, owed) && Borrowers(t) && Lifetimes(t)
    ensures Refs(t.(devs := DevsAfter(t, owed)))
  {
    var devs := DevsAfter(t, owed);
    if owed.Some? {
      DevFrame(t.devs, devs, owed.value);
    }
    forall d: nat ensures DevOf(devs, d).refs == Holders(t.(devs := devs), d) {
      assert DevOf(t.devs, d).refs == Holders(t, d) + (if owed == Some(d) then 1 else 0) as int;
    }
  }

  lemma KeepRefs(s: State, l: Label)
    requires Shape(s) && Locks(s) && Tokens(s) && Refs(s) && Enabled(s, l)
    ensures Refs(Effect(s, l).(devs := DevsAfter(Effect(s, l), Drops(s, l))))
  {
    KeepCounted(s, l);
    KeepBorrowers(s, l);
    KeepLifetimes(s, l);
    Settle(Effect(s, l), Drops(s, l));
  }
}
