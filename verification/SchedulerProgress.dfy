/** Work is never stuck, whatever devices are plugged in. */
module SchedulerProgress {
  import opened Basics
  import opened Scheduler
  import opened SchedulerInvariant
  import opened SchedulerRecords
  import opened SchedulerRefs
  import opened SchedulerWake
  import opened SchedulerRuns
  import opened SchedulerFuel

  // The scheduler never needs anybody from outside to go on: as long as a command is queued or running, one of
  // its own steps is possible; after quit, as long as a worker has not left, one of these or a post of
  // `Cleanup`. So wherever its own threads have come to a stop, every accepted command has been done, or,
  // after quit, every worker has left.

  /** The scheduler's own steps: those of its workers, and those inside `QueueCmd` once the command is queued.
      No step of the monitors, and no coming or going of callers. */
  predicate OwnStep(l: Label) { ByWorker(l) || l.Request? || l.Post? || l.Unlock? }

  /** Whoever holds the lock of a queue can take its next step. */
  lemma HolderCanGo(s: State, k: Slot) returns (l: Label)
    requires Inv(s) && LaneOf(s.slots, k).lock.Some?
    ensures OwnStep(l) && Enabled(s, l)
  {
    l := InsideCanGo(s, LaneOf(s.slots, k).lock.value);
  }

  /** A caller inside `QueueCmd` can go on. */
  lemma InsideCanGo(s: State, p: nat) returns (l: Label)
    requires Shape(s) && p < |s.producers| && s.producers[p].At? && !s.producers[p].phase.Ready?
    ensures OwnStep(l) && Enabled(s, l) && l in {Request(p), Post(p), Unlock(p)}
  {
    l := match s.producers[p].phase
         case Pushed => Request(p)
         case Posting => Post(p)
         case Unlocking => Unlock(p);
  }

  /** A worker that is neither waiting nor gone can go on, or the holder of the lock it wants can. */
  lemma WorkerCanGo(s: State, w: nat) returns (l: Label)
    requires Inv(s) && w < |s.workers| && !s.workers[w].pc.Left? && !s.workers[w].pc.Waiting?
    ensures OwnStep(l) && Enabled(s, l)
  {
    var q := s.workers[w].queue;
    match s.workers[w].pc {
      case Check => l := Look(w);
      case AtList => l := Fetch(w);
      case Popped(d) =>
        if LaneOf(s.slots, Slot(d, q)).lock == None { l := Take(w); } else { l := HolderCanGo(s, Slot(d, q)); }
      case Relock(d) =>
        if LaneOf(s.slots, Slot(d, q)).lock == None { l := Take(w); } else { l := HolderCanGo(s, Slot(d, q)); }
      case Serving(_, _, progress) =>
        l := match progress
             case Taken => Call(w, OnCancelled)
             case Executing => Call(w, OnExecuted)
             case Finished(_) => FreeRec(w);
      case Releasing(_) => l := Release(w);
    }
  }

  /** A caller with a device can queue any new command on any queue at once, before quit as well as after it, unless
      another caller holds the lock of that queue; and that one can go on. */
  lemma QueueCmdIsNeverStuck(s: State, p: nat, q: Queue, c: Cmd) returns (l: Label)
    requires Reachable(s) && ProducerAt(s, p, Ready) && c !in s.fate
    ensures Shape(s) && Enabled(s, l)
    ensures l == Push(p, q, c) || (exists r :: r != p && l in {Request(r), Post(r), Unlock(r)})
  {
    ReachableInv(s);
    var k := Slot(s.producers[p].dev, q);
    if LaneOf(s.slots, k).lock == None {
      l := Push(p, q, c);
    } else {
      var r := LaneOf(s.slots, k).lock.value;
      l := InsideCanGo(s, r);
    }
  }

  /** After quit, as long as a worker has not left, the scheduler or the posting loop of `Cleanup` can go on. */
  lemma ShutdownIsNeverStuck(s: State, w: nat) returns (l: Label)
    requires Reachable(s) && s.quit && w < |s.workers| && s.workers[w].pc != Left
    ensures Shape(s) && (OwnStep(l) || l.QuitPost?) && Enabled(s, l)
  {
    ReachableInv(s);
    if s.workers[w].pc.Waiting? {
      var q := s.workers[w].queue;
      assert w in Waiters(s.workers, q);
      l := if s.sem[q] > 0 then Wake(w) else QuitPost(q);
    } else {
      l := WorkerCanGo(s, w);
    }
  }

  // ---------------------------------------------------------------- before quit

  /** Workers leave only after quit. */
  ghost predicate NobodyLeft(s: State) {
    forall w | 0 <= w < |s.workers| && s.workers[w].pc.Left? :: s.quit
  }

  lemma KeepNobodyLeft(s: State, l: Label)
    requires Inv(s) && Enabled(s, l) && NobodyLeft(s)
    ensures NobodyLeft(Next(s, l))
  {
    FlushCancelsNothing(s, l);
    EffectKeepsNobodyLeft(s, l);
  }

  lemma LoopKeepsNobodyLeft(s: State, l: Label)
    requires Shape(s) && Enabled(s, l) && ByWorker(l) && !InExecute(l)
    ensures WorkerOnly(s, Effect(s, l), l.w) && (Effect(s, l).workers[l.w].pc.Left? ==> s.quit)
  {
    LoopFrame(s, l);
  }

  lemma CleanupQuits(s: State, l: Label)
    requires Shape(s) && Enabled(s, l) && ByCleanup(l)
    ensures Effect(s, l).quit && Effect(s, l).workers == s.workers
  {
  }

  lemma EffectKeepsNobodyLeft(s: State, l: Label)
    requires Shape(s) && Enabled(s, l) && NobodyLeft(s)
    ensures NobodyLeft(Effect(s, l))
  {
    if ByMonitor(l) {
      MonitorFrame(s, l);
    } else if ByProducer(l) {
      ProducerFrame(s, l);
    } else if InExecute(l) {
      ExecuteStaysAwake(s, l);
    } else if ByWorker(l) {
      LoopKeepsNobodyLeft(s, l);
    } else {
      CleanupQuits(s, l);
    }
  }

  lemma {:induction false} RunNobodyLeft(states: seq<State>, labels: seq<Label>, i: nat)
    requires IsRun(states, labels) && Init(states[0]) && i < |states|
    ensures NobodyLeft(states[i])
  {
    if i == 0 {
    } else {
      RunNobodyLeft(states, labels, i - 1);
      RunInv(states, labels, i - 1);
      KeepNobodyLeft(states[i - 1], labels[i - 1]);
    }
  }

  lemma ReachableNobodyLeft(s: State)
    requires Reachable(s)
    ensures NobodyLeft(s)
  {
    var states, labels :| IsRun(states, labels) && Init(states[0]) && s == states[|states| - 1];
    RunNobodyLeft(states, labels, |states| - 1);
  }

  /** Every queue has a thread, as `Startup` sees to. */
  ghost predicate Staffed(s: State) { forall q: Queue :: Pool(s.workers, q) != {} }

  /** No command is queued or running, no caller is inside `QueueCmd`, and all workers wait. */
  ghost predicate AtRest(s: State) {
    && (forall k :: LaneOf(s.slots, k).cmds == [] && !LaneOf(s.slots, k).running)
    && (forall p | 0 <= p < |s.producers| && s.producers[p].At? :: s.producers[p].phase.Ready?)
    && (forall w | 0 <= w < |s.workers| :: s.workers[w].pc.Waiting?)
  }

  /** Behind a device on a list there is always somebody who can go on. */
  lemma ListedCanGo(s: State, q: Queue) returns (l: Label)
    requires Inv(s) && Staffed(s) && NobodyLeft(s) && !s.quit && s.exec[q] != []
    ensures OwnStep(l) && Enabled(s, l)
  {
    assert WakeAt(s, q);
    if Posters(s.producers, q) != {} {
      var p :| p in Posters(s.producers, q);
      l := Post(p);
    } else if AwakeOf(s.workers, q) != {} {
      var w :| w in AwakeOf(s.workers, q);
      l := WorkerCanGo(s, w);
    } else {
      var w :| w in Pool(s.workers, q);
      if s.workers[w].pc.Waiting? { l := Wake(w); } else { l := WorkerCanGo(s, w); }
    }
  }

  /** Behind a command that is queued or running, too. */
  lemma BusyCanGo(s: State, k: Slot) returns (l: Label)
    requires Inv(s) && Staffed(s) && NobodyLeft(s) && !s.quit && Busy(s, k)
    ensures OwnStep(l) && Enabled(s, l)
  {
    assert SlotOk(s, k);
    if InWindow(s, k) {
      l := HolderCanGo(s, k);
    } else if InList(s, k) {
      l := ListedCanGo(s, k.queue);
    } else {
      var w :| w in Servers(s.workers, k);
      l := WorkerCanGo(s, w);
    }
  }

  lemma RestlessCanGo(s: State) returns (l: Label)
    requires Inv(s) && Staffed(s) && NobodyLeft(s) && !s.quit && !AtRest(s)
    ensures OwnStep(l) && Enabled(s, l)
  {
    if p: nat :| p < |s.producers| && s.producers[p].At? && !s.producers[p].phase.Ready? {
      l := InsideCanGo(s, p);
    } else if w: nat :| w < |s.workers| && !s.workers[w].pc.Waiting? {
      l := WorkerCanGo(s, w);
    } else {
      var k :| LaneOf(s.slots, k).cmds != [] || LaneOf(s.slots, k).running;
      l := BusyCanGo(s, k);
    }
  }

  /** Before quit, with a thread for every queue: as long as a command is queued or running anywhere, the
      scheduler can go on by itself. */
  lemma WorkIsNeverStuck(s: State, k: Slot) returns (l: Label)
    requires Reachable(s) && Staffed(s) && !s.quit && Busy(s, k)
    ensures Shape(s) && OwnStep(l) && Enabled(s, l)
  {
    ReachableInv(s);
    ReachableNobodyLeft(s);
    l := BusyCanGo(s, k);
  }

  /** It has come to a stop. */
  ghost predicate Stopped(s: State)
    requires Shape(s)
  {
    forall l | Enabled(s, l) :: !OwnStep(l)
  }

  /** And it stops exactly where it is at rest and no wake-up is left over. */
  lemma StoppedIff(s: State)
    requires Reachable(s) && Staffed(s) && !s.quit
    ensures Shape(s) && (Stopped(s) <==> AtRest(s) && forall q: Queue :: s.sem[q] == 0)
  {
    ReachableInv(s);
    ReachableNobodyLeft(s);
    if !AtRest(s) {
      var l := RestlessCanGo(s);
    } else if q: Queue :| s.sem[q] != 0 {
      var w :| w in Pool(s.workers, q);
      assert Enabled(s, Wake(w));
    } else {
      forall l | Enabled(s, l) ensures !OwnStep(l) {
        RestHasNoStep(s, l);
      }
    }
  }

  lemma RestHasNoStep(s: State, l: Label)
    requires Shape(s) && AtRest(s) && (forall q: Queue :: s.sem[q] == 0) && Enabled(s, l)
    ensures !OwnStep(l)
  {
  }

  /** Where the scheduler has come to a stop, every command ever accepted has been ended and deleted,
      whatever devices are plugged in and whatever callers and monitors may still do. */
  lemma AllWorkGetsDone(s: State)
    requires Reachable(s) && Staffed(s) && !s.quit && Shape(s) && Stopped(s)
    ensures forall c | c in s.fate :: s.fate[c].Over?
  {
    ReachableInv(s);
    StoppedIff(s);
    forall c | c in s.fate ensures s.fate[c].Over? {
      assert s.fate[c].InQueue? ==> QueuedAt(s, s.fate[c].slot);
    }
  }
}
