/** The invariant over whole runs, and what it says about them. */
module SchedulerRuns {
  import opened Basics
  import opened Scheduler
  import opened SchedulerInvariant
  import opened SchedulerRefs
  import opened SchedulerCommands
  import opened SchedulerRecords
  import opened SchedulerWake

  ghost predicate Inv(s: State) {
    && Shape(s) && Locks(s) && Tokens(s) && Refs(s)
    && Refines(s) && Places(s) && Told(s)
    && Wakeful(s) && EnoughPosts(s)
  }

  lemma InitInv(s: State)
    requires Init(s)
    ensures Inv(s)
  {
    assert forall k :: Servers(s.workers, k) == {};
    forall d: nat ensures Holders(s, d) == 0 {
      assert ListRefs(s.exec, d) == {} && WorkerRefs(s.workers, d) == {} && ProducerRefs(s.producers, d) == {};
    }
  }

  /** The parts of the invariant that do not look at the device records. */
  lemma DevsDoNotMatter(s: State, devs: map<nat, Device>)
    requires Shape(s) && Locks(s) && Tokens(s) && Refines(s) && Places(s) && Told(s) && Wakeful(s) && EnoughPosts(s)
    ensures var t := s.(devs := devs);
      Shape(t) && Locks(t) && Tokens(t) && Refines(t) && Places(t) && Told(t) && Wakeful(t) && EnoughPosts(t)
  {
    var t := s.(devs := devs);
    KeepTokensFrame(s, t);
    KeepRefinesFrame(s, t);
    KeepPlacesFrame(s, t);
    KeepToldFrame(s, t);
    forall q: Queue ensures WakeAt(t, q) { assert WakeAt(s, q); }
  }

  lemma StepInv(s: State, l: Label)
    requires Inv(s) && Enabled(s, l)
    ensures Inv(Next(s, l))
  {
    var t := Effect(s, l);
    KeepShape(s, l);
    KeepLocks(s, l);
    KeepTokens(s, l);
    KeepRefines(s, l);
    KeepPlaces(s, l);
    KeepTold(s, l);
    KeepWakeful(s, l);
    FlushCancelsNothing(s, l);
    KeepRefs(s, l);
    DevsDoNotMatter(t, DevsAfter(t, Drops(s, l)));
  }

  /** Every state of every run satisfies the invariant. */
  lemma {:induction false} RunInv(states: seq<State>, labels: seq<Label>, i: nat)
    requires IsRun(states, labels) && Init(states[0]) && i < |states|
    ensures Inv(states[i])
  {
    if i == 0 {
      InitInv(states[0]);
    } else {
      RunInv(states, labels, i - 1);
      StepInv(states[i - 1], labels[i - 1]);
    }
  }

  ghost predicate Reachable(s: State) {
    exists states, labels :: IsRun(states, labels) && Init(states[0]) && s == states[|states| - 1]
  }

  lemma ReachableInv(s: State)
    requires Reachable(s)
    ensures Inv(s)
  {
    var states, labels :| IsRun(states, labels) && Init(states[0]) && s == states[|states| - 1];
    RunInv(states, labels, |states| - 1);
  }

  // ---------------------------------------------------------------- one executor per slot

  datatype Token = Entry | InHandsOf(worker: nat)

  /** The right to serve a slot: its list entry, or the worker that popped or runs it. */
  ghost function TokensOf(s: State, k: Slot): set<Token>
    requires Shape(s)
  {
    (if InList(s, k) then {Entry} else {}) + (set w | w in Servers(s.workers, k) :: InHandsOf(w))
  }

  ghost predicate Busy(s: State, k: Slot) { LaneOf(s.slots, k).cmds != [] || LaneOf(s.slots, k).running }

  lemma NobodyServes(s: State, k: Slot)
    requires Shape(s) && Servers(s.workers, k) == {}
    ensures TokensOf(s, k) == if InList(s, k) then {Entry} else {}
  {
    assert (set w | w in Servers(s.workers, k) :: InHandsOf(w)) == {};
  }

  lemma OneServes(s: State, k: Slot, w: nat)
    requires Shape(s) && Servers(s.workers, k) == {w} && !InList(s, k)
    ensures TokensOf(s, k) == {InHandsOf(w)}
  {
  }

  lemma OneToken(s: State, k: Slot)
    requires Reachable(s)
    ensures Shape(s) && NoDup(s.exec[k.queue])
    ensures |TokensOf(s, k)| == if Busy(s, k) && !InWindow(s, k) then 1 else 0
  {
    ReachableInv(s);
    assert SlotOk(s, k);
    var sv := Servers(s.workers, k);
    if sv == {} {
      NobodyServes(s, k);
    } else {
      var w :| w in sv;
      assert sv == {w};
      OneServes(s, k, w);
    }
  }

  /** The ERROR_ALREADY_EXISTS branch of `Request` is dead. */
  lemma RequestFindsNoEntry(s: State, p: nat)
    requires Reachable(s) && ProducerAt(s, p, Pushed)
    ensures Shape(s) && s.producers[p].dev !in s.exec[s.producers[p].queue]
  {
    ReachableInv(s);
    KeepTokensRequest(s, p);
  }

  // ---------------------------------------------------------------- lifetime

  /** The device a step works on through a pointer it holds. */
  function Touches(s: State, l: Label): Option<nat>
    requires Shape(s) && Enabled(s, l)
  {
    match l
    case Insert(d) => Some(d)
    case CenterAddRef(d) => Some(d)
    case Erase(d) => Some(d)
    case CenterRelease(d) => Some(d)
    case MonRelease(d) => Some(d)
    case Get(_, d) => Some(d)
    case Borrow(_, d) => Some(d)
    case Push(p, _, _) => Some(s.producers[p].dev)
    case Request(p) => Some(s.producers[p].dev)
    case Post(p) => Some(s.producers[p].dev)
    case Unlock(p) => Some(s.producers[p].dev)
    case Drop(p) => Some(s.producers[p].dev)
    case Take(w) => Some(s.workers[w].pc.dev)
    case Call(w, _) => Some(s.workers[w].pc.dev)
    case FreeRec(w) => Some(s.workers[w].pc.dev)
    case Release(w) => Some(s.workers[w].pc.dev)
    case _ => None
  }

  /** The count equals the holders, and the object is destroyed once, when the last one lets go. */
  lemma CountIsHolders(s: State, d: nat)
    requires Reachable(s)
    ensures DevOf(s.devs, d).refs == Holders(s, d)
    ensures DevOf(s.devs, d).destroyed == if DevOf(s.devs, d).stage == Gone && Holders(s, d) == 0 then 1 else 0
  {
    ReachableInv(s);
  }

  lemma WorkerTouchesItsDevice(s: State, l: Label)
    requires Shape(s) && Enabled(s, l) && ByWorker(l) && Touches(s, l).Some?
    ensures l.w in WorkerRefs(s.workers, Touches(s, l).value)
  {
  }

  lemma ListedIsHeld(s: State, l: Label)
    requires Shape(s) && Enabled(s, l) && (ByMonitor(l) || l.Get? || l.Borrow?) && Touches(s, l).Some?
    ensures RegistryRefs(DevOf(s.devs, Touches(s, l).value).stage) > 0
  {
  }

  lemma NeverTouchesTheDead(s: State, l: Label)
    requires Reachable(s) && Shape(s) && Enabled(s, l) && Touches(s, l).Some?
    ensures var dev := DevOf(s.devs, Touches(s, l).value); dev.refs > 0 && dev.destroyed == 0
  {
    ReachableInv(s);
    var d := Touches(s, l).value;
    assert DevOf(s.devs, d).refs == Holders(s, d);
    if ByWorker(l) {
      WorkerTouchesItsDevice(s, l);
    } else if ByMonitor(l) || l.Get? || l.Borrow? {
      ListedIsHeld(s, l);
    } else {
      CallerKeepsAlive(s, l.p);
    }
  }

  lemma MonitorDestroysNothing(s: State, l: Label, d: nat)
    requires Shape(s) && Enabled(s, l) && ByMonitor(l)
    ensures DevOf(Effect(s, l).devs, d).destroyed == DevOf(s.devs, d).destroyed
  {
  }

  lemma ProducerDestroysNothing(s: State, l: Label, d: nat)
    requires Shape(s) && Enabled(s, l) && ByProducer(l)
    ensures DevOf(Effect(s, l).devs, d).destroyed == DevOf(s.devs, d).destroyed
  {
  }

  lemma EffectDestroysNothing(s: State, l: Label, d: nat)
    requires Shape(s) && Enabled(s, l)
    ensures DevOf(Effect(s, l).devs, d).destroyed == DevOf(s.devs, d).destroyed
  {
    if ByMonitor(l) {
      MonitorDestroysNothing(s, l, d);
    } else if ByProducer(l) {
      ProducerDestroysNothing(s, l, d);
    } else if ByWorker(l) {
      WorkerFrame(s, l);
    } else {
      CleanupFrame(s, l);
    }
  }

  lemma DropsOnly(s: State, l: Label)
    requires Shape(s) && Enabled(s, l) && Drops(s, l).Some?
    ensures SameWork(s, Effect(s, l))
  {
    NoWorkMoves(s, l);
  }

  /** A device whose count has just dropped to zero has nothing queued. */
  lemma DestroyedIsIdle(s: State, d: nat)
    requires Inv(s) && DevOf(s.devs, d).refs == 0
    ensures forall q: Queue :: LaneOf(s.slots, Slot(d, q)).cmds == []
  {
    assert DevOf(s.devs, d).refs == Holders(s, d);
    NothingQueued(s, d);
  }

  /** The step that destroys a device finds its four queues empty, so its flush logs nothing. */
  lemma DestructorCancelsNothing(s: State, l: Label, d: nat)
    requires Reachable(s) && Shape(s) && Enabled(s, l)
    requires DevOf(Next(s, l).devs, d).destroyed > DevOf(s.devs, d).destroyed
    ensures forall q: Queue :: LaneOf(s.slots, Slot(d, q)).cmds == []
    ensures Next(s, l).log == s.log && Next(s, l).fate == s.fate
  {
    ReachableInv(s);
    StepInv(s, l);
    FlushCancelsNothing(s, l);
    EffectDestroysNothing(s, l, d);
    assert Drops(s, l) == Some(d);
    DropsOnly(s, l);
    DestroyedIsIdle(Next(s, l), d);
  }

  // ---------------------------------------------------------------- commands

  /** Each queue of each device is a sequential first-in first-out server. */
  lemma SlotIsFifoServer(s: State, k: Slot)
    requires Reachable(s)
    ensures Replay(s.log, k).Server? && Replay(s.log, k).queue == LaneOf(s.slots, k).cmds
    ensures var active := Replay(s.log, k).active;
      && Accepted(s.log, k) == Started(s.log, k) + LaneOf(s.slots, k).cmds
      && Started(s.log, k) == Ended(s.log, k)
           + (if active.Some? && !active.value.1.Finished? then [active.value.0] else [])
      && Ended(s.log, k) == Deleted(s.log, k)
           + (if active.Some? && active.value.1.Finished? then [active.value.0] else [])
  {
    ReachableInv(s);
    assert RefinesAt(s, k);
    ServerIsFifo(s.log, k);
  }

  /** A record that was deleted saw OnCancelled alone, or OnExecuting and then one of OnExecuted and
      OnFailed; one that was not has seen a proper beginning of that. */
  lemma RecordStory(s: State, c: Cmd)
    requires Reachable(s)
    ensures Story(s.log, c) == if c in s.fate then Tale(c, s.fate[c]) else []
    ensures c in s.fate && s.fate[c].Over? ==> s.fate[c].last in {OnExecuted, OnFailed, OnCancelled}
  {
    ReachableInv(s);
  }

  // ---------------------------------------------------------------- wake-ups

  /** A device on a list has a post waiting, a post coming, or a worker that will look again. */
  lemma NoLostWakeup(s: State, q: Queue)
    requires Reachable(s)
    ensures Shape(s)
    ensures s.exec[q] != [] ==>
      s.sem[q] > 0 || Posters(s.producers, q) != {} || AwakeOf(s.workers, q) != {}
  {
    ReachableInv(s);
    assert WakeAt(s, q);
  }
}
