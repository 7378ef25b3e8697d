/** The fuel of a state counts what is left to do: so much for each command still queued, for each device on a
    list, for each post due or waiting, for each thread according to the place it is at, and for each device
    according to how far it is from being unplugged. Every step that brings no new work, before quit or after
    it, uses some. */
module SchedulerFuel {
  import opened Basics
  import opened Scheduler
  import opened SchedulerInvariant
  import opened SchedulerRecords
  import opened SchedulerRefs
  import opened SchedulerRuns
  import opened Sums

  function WorkerFuel(wk: Worker): nat {
    match wk.pc
    case Left => 0
    case Waiting => 1
    case Check => 2
    case AtList => 3
    case Releasing(_) => 4
    case Popped(_) => 5
    case Relock(_) => 5
    case Serving(_, _, progress) => match progress case Finished(_) => 6 case Executing => 7 case Taken => 8
  }

  function ProducerFuel(pr: Producer): nat {
    match pr
    case Idle => 0
    case At(_, _, _, phase) =>
      match phase case Ready => 1 case Unlocking => 2 case Posting => 6 case Pushed => 10
  }

  function StageFuel(stage: Stage): nat {
    match stage
    case New => 5
    case Inserted => 4
    case Attached => 3
    case Erased => 2
    case CenterReleased => 1
    case Unborn => 0
    case Gone => 0
  }

  function Pending(slots: map<Slot, Lane>): set<(Slot, nat)> {
    set k, i | k in slots && 0 <= i < |slots[k].cmds| :: (k, i)
  }

  function StagesLeft(devs: map<nat, Device>): set<(nat, nat)> {
    set d, i | d in devs && 0 <= i < StageFuel(devs[d].stage) :: (d, i)
  }

  function ListFuel(list: seq<nat>): nat { 3 * |list| }

  function PostFuel(n: nat): nat { 4 * n }

  function SemFuel(n: nat): nat { 3 * n }

  function Fuel(s: State): nat
  {
    4 * |Pending(s.slots)| + Total(s.exec, ListFuel) + Total(s.posts, PostFuel) + Total(s.sem, SemFuel)
    + Total(s.workers, WorkerFuel) + Total(s.producers, ProducerFuel) + |StagesLeft(s.devs)|
  }

  /** Steps other than creating or finding a device, queueing a command, and setting the quit flag. */
  predicate Quiet(l: Label) { !l.Create? && !l.Get? && !l.Borrow? && !l.Push? && !l.Quit? }

  lemma PendingUpdate(slots: map<Slot, Lane>, k0: Slot, lane: Lane)
    requires |lane.cmds| == |LaneOf(slots, k0).cmds| || |lane.cmds| + 1 == |LaneOf(slots, k0).cmds|
    ensures |Pending(slots[k0 := lane])| == |Pending(slots)| - |LaneOf(slots, k0).cmds| + |lane.cmds|
  {
    var n := |lane.cmds|;
    if n == |LaneOf(slots, k0).cmds| {
      assert Pending(slots[k0 := lane]) == Pending(slots);
    } else {
      assert Pending(slots) == Pending(slots[k0 := lane]) + {(k0, n)};
    }
  }

  lemma StageUpdate(devs: map<nat, Device>, d: nat, dev: Device)
    requires dev.stage == DevOf(devs, d).stage || StageFuel(dev.stage) + 1 == StageFuel(DevOf(devs, d).stage)
    ensures |StagesLeft(devs[d := dev])|
         == |StagesLeft(devs)| - StageFuel(DevOf(devs, d).stage) + StageFuel(dev.stage)
  {
    if dev.stage == DevOf(devs, d).stage {
      assert StagesLeft(devs[d := dev]) == StagesLeft(devs);
    } else {
      assert StagesLeft(devs) == StagesLeft(devs[d := dev]) + {(d, StageFuel(dev.stage))};
    }
  }

  lemma BurnByMonitor(s: State, l: Label)
    requires Shape(s) && Enabled(s, l) && ByMonitor(l) && !l.Create?
    ensures Fuel(Effect(s, l)) < Fuel(s)
  {
    var t := Effect(s, l);
    assert t.devs == s.devs[l.dev := DevOf(t.devs, l.dev)];
    StageUpdate(s.devs, l.dev, DevOf(t.devs, l.dev));
  }

  lemma RequestKeepsStages(s: State, p: nat)
    requires Shape(s) && ProducerAt(s, p, Pushed)
    ensures |StagesLeft(AfterRequest(s, p).devs)| == |StagesLeft(s.devs)|
  {
    var d := s.producers[p].dev;
    StageUpdate(s.devs, d, DevOf(AfterRequest(s, p).devs, d));
  }

  lemma BurnRequest(s: State, p: nat)
    requires Inv(s) && Enabled(s, Request(p))
    ensures Fuel(AfterRequest(s, p)) < Fuel(s)
  {
    var t := AfterRequest(s, p);
    var q := s.producers[p].queue;
    RequestFits(s, p);
    RequestKeepsStages(s, p);
    TotalUpdate(s.producers, p, t.producers[p], ProducerFuel);
    TotalUpdate(s.exec, q, t.exec[q], ListFuel);
  }

  lemma RequestFits(s: State, p: nat)
    requires Inv(s) && Enabled(s, Request(p))
    ensures s.producers[p].dev !in s.exec[s.producers[p].queue]
  {
    KeepTokensRequest(s, p);
  }

  lemma BurnUnlock(s: State, p: nat)
    requires Shape(s) && ProducerAt(s, p, Unlocking)
    ensures Fuel(AfterUnlock(s, p)) < Fuel(s)
  {
    var t := AfterUnlock(s, p);
    var k := ProducerSlot(s.producers[p]);
    TotalUpdate(s.producers, p, t.producers[p], ProducerFuel);
    PendingUpdate(s.slots, k, LaneOf(t.slots, k));
  }

  lemma BurnPost(s: State, p: nat)
    requires Shape(s) && Enabled(s, Post(p))
    ensures Fuel(Effect(s, Post(p))) < Fuel(s)
  {
    var q := s.producers[p].queue;
    TotalUpdate(s.producers, p, s.producers[p].(phase := Unlocking), ProducerFuel);
    TotalUpdate(s.sem, q, s.sem[q] + 1, SemFuel);
  }

  lemma BurnDrop(s: State, p: nat)
    requires Shape(s) && Enabled(s, Drop(p))
    ensures Fuel(Effect(s, Drop(p))) < Fuel(s)
  {
    TotalUpdate(s.producers, p, Idle, ProducerFuel);
  }

  lemma BurnByProducer(s: State, l: Label)
    requires Inv(s) && Enabled(s, l) && ByProducer(l) && Quiet(l)
    ensures Fuel(Effect(s, l)) < Fuel(s)
  {
    if l.Request? {
      BurnRequest(s, l.p);
    } else if l.Unlock? {
      BurnUnlock(s, l.p);
    } else if l.Post? {
      BurnPost(s, l.p);
    } else {
      BurnDrop(s, l.p);
    }
  }

  lemma TakeUses(s: State, w: nat)
    requires WorkerAt(s, w) && (s.workers[w].pc.Popped? || s.workers[w].pc.Relock?)
    ensures var n := |LaneOf(s.slots, WorkerSlot(s.workers[w])).cmds|;
      |Pending(AfterTake(s, w).slots)| == |Pending(s.slots)| - if n == 0 then 0 else 1
  {
    var k := WorkerSlot(s.workers[w]);
    PendingUpdate(s.slots, k, LaneOf(AfterTake(s, w).slots, k));
  }

  lemma TakeMoves(s: State, w: nat)
    requires WorkerAt(s, w) && (s.workers[w].pc.Popped? || s.workers[w].pc.Relock?)
    ensures var n := |LaneOf(s.slots, WorkerSlot(s.workers[w])).cmds|;
      Total(AfterTake(s, w).workers, WorkerFuel) == Total(s.workers, WorkerFuel) + if n == 0 then -1 else 3
  {
    var k := WorkerSlot(s.workers[w]);
    var cmds := LaneOf(s.slots, k).cmds;
    var pc := if cmds == [] then Releasing(k.dev) else Serving(k.dev, cmds[0], Taken);
    TotalUpdate(s.workers, w, s.workers[w].(pc := pc), WorkerFuel);
  }

  lemma BurnTake(s: State, w: nat)
    requires WorkerAt(s, w) && (s.workers[w].pc.Popped? || s.workers[w].pc.Relock?)
    ensures Fuel(AfterTake(s, w)) < Fuel(s)
  {
    TakeUses(s, w);
    TakeMoves(s, w);
  }

  lemma BurnPop(s: State, w: nat)
    requires Shape(s) && WorkerAt(s, w) && s.workers[w].pc == AtList && s.exec[s.workers[w].queue] != []
    ensures Fuel(AfterFetch(s, w)) < Fuel(s)
  {
    var q := s.workers[w].queue;
    TotalUpdate(s.workers, w, s.workers[w].(pc := Popped(s.exec[q][0])), WorkerFuel);
    TotalUpdate(s.exec, q, s.exec[q][1..], ListFuel);
  }

  lemma BurnFetch(s: State, w: nat)
    requires Shape(s) && WorkerAt(s, w) && s.workers[w].pc == AtList
    ensures Fuel(AfterFetch(s, w)) < Fuel(s)
  {
    if s.exec[s.workers[w].queue] == [] {
      BurnWorker(s, w, AfterFetch(s, w));
    } else {
      BurnPop(s, w);
    }
  }

  /** Only one worker moved, towards the end. */
  lemma BurnWorker(s: State, w: nat, t: State)
    requires w < |s.workers| == |t.workers| && t.workers == s.workers[w := t.workers[w]]
    requires WorkerFuel(t.workers[w]) < WorkerFuel(s.workers[w])
    requires t.slots == s.slots && t.exec == s.exec && t.posts == s.posts && t.sem == s.sem
    requires t.producers == s.producers && t.devs == s.devs
    ensures Fuel(t) < Fuel(s)
  {
    TotalUpdate(s.workers, w, t.workers[w], WorkerFuel);
  }

  lemma BurnWake(s: State, w: nat)
    requires Shape(s) && Enabled(s, Wake(w))
    ensures Fuel(Effect(s, Wake(w))) < Fuel(s)
  {
    var t := Effect(s, Wake(w));
    var q := s.workers[w].queue;
    var wk := s.workers[w].(pc := AtList);
    assert t.workers == s.workers[w := wk] && t.sem == s.sem[q := s.sem[q] - 1];
    TotalUpdate(s.workers, w, wk, WorkerFuel);
    TotalUpdate(s.sem, q, s.sem[q] - 1, SemFuel);
  }

  lemma BurnInLoop(s: State, l: Label)
    requires Shape(s) && Enabled(s, l) && ByWorker(l) && !InExecute(l)
    ensures Fuel(Effect(s, l)) < Fuel(s)
  {
    if l.Fetch? {
      BurnFetch(s, l.w);
    } else if l.Wake? {
      BurnWake(s, l.w);
    } else {
      BurnWorker(s, l.w, Effect(s, l));
    }
  }

  lemma BurnInExecute(s: State, l: Label)
    requires Shape(s) && Enabled(s, l) && InExecute(l)
    ensures Fuel(Effect(s, l)) < Fuel(s)
  {
    if l.Take? {
      BurnTake(s, l.w);
    } else {
      BurnWorker(s, l.w, Effect(s, l));
    }
  }

  lemma BurnQuitPost(s: State, q: Queue)
    requires Shape(s) && Enabled(s, QuitPost(q))
    ensures Fuel(Effect(s, QuitPost(q))) < Fuel(s)
  {
    TotalUpdate(s.posts, q, s.posts[q] - 1, PostFuel);
    TotalUpdate(s.sem, q, s.sem[q] + 1, SemFuel);
  }

  lemma DropBurnsNothing(t: State, owed: Option<nat>)
    ensures Fuel(t.(devs := DevsAfter(t, owed))) == Fuel(t)
  {
    if owed.Some? {
      StageUpdate(t.devs, owed.value, DevsAfter(t, owed)[owed.value]);
    }
  }

  lemma EffectBurns(s: State, l: Label)
    requires Inv(s) && Enabled(s, l) && Quiet(l)
    ensures Fuel(Effect(s, l)) < Fuel(s)
  {
    if ByMonitor(l) {
      BurnByMonitor(s, l);
    } else if ByProducer(l) {
      BurnByProducer(s, l);
    } else if InExecute(l) {
      BurnInExecute(s, l);
    } else if ByWorker(l) {
      BurnInLoop(s, l);
    } else {
      BurnQuitPost(s, l.queue);
    }
  }

  lemma StepBurns(s: State, l: Label)
    requires Inv(s) && Enabled(s, l) && Quiet(l)
    ensures Inv(Next(s, l)) && Fuel(Next(s, l)) < Fuel(s)
  {
    EffectBurns(s, l);
    FlushCancelsNothing(s, l);
    StepInv(s, l);
    DropBurnsNothing(Effect(s, l), Drops(s, l));
  }
}
