/** The per-device command scheduler of jni/libdevmgr/dev/SmartDeviceAdb.cpp, together with the
    reference count every device carries (comm/PObject.cpp) and the two registries that hold devices
    (dev/AdbDeviceMon.cpp, dev/DeviceCenter.cpp).

    It is a labelled transition system. One label is one lock-protected region, one semaphore
    operation or one callback, so a run is an interleaving of all threads. Any number of devices, of
    callers of `QueueCmd` ("producers") and of worker threads up to the source's thread map is
    allowed. The definitions are here; the invariant is in SchedulerInvariant.dfy. */
module Scheduler {
  import opened Basics

  /** ADB_CMD_THREAD_MAP: the size of the worker pool of each of the four queues. */
  const THREAD_MAP: seq<nat> := [1, 1, 4, 2]

  type Queue = q: nat | q < 4

  /** One command queue of one device: `_CmdList[queue]`, `_bRunning[queue]`, `_CmdLock[queue]`. */
  datatype Slot = Slot(dev: nat, queue: Queue)

  /** Whose callbacks a command carries: the row `id` of the request table, or another observer. */
  datatype Owner = RowCmd(id: nat) | OtherCmd

  /** An ADB_CMD_REC; the serial number stands for the identity of the allocated record. */
  datatype Cmd = Cmd(serial: nat, owner: Owner)

  datatype Lane = Lane(cmds: seq<Cmd>, running: bool, lock: Option<nat>)

  /** How far the monitor thread has got with registering and unregistering a device. Between
      Inserted and Attached the list of `DeviceCenter` holds an entry whose AddRef is still due;
      between Erased and CenterReleased the entry is gone and its Release is still due. */
  datatype Stage = Unborn | New | Inserted | Attached | Erased | CenterReleased | Gone

  datatype Device = Device(refs: int, stage: Stage, destroyed: nat)

  datatype Callback = OnExecuting | OnExecuted | OnFailed | OnCancelled

  datatype Progress = Taken | Executing | Finished(last: Callback)

  /** Program counter of `WorkThread` and of the `Execute` it calls. */
  datatype Pc =
    | Check                                    // about to test _bExecQuit
    | Waiting                                  // in sem_wait
    | AtList                                   // about to lock the list and look at it
    | Popped(dev: nat)                         // device popped, its queue not locked yet
    | Serving(dev: nat, cmd: Cmd, progress: Progress)
    | Relock(dev: nat)                         // record freed, about to lock the queue again
    | Releasing(dev: nat)                      // Execute has returned, Release is due
    | Left

  datatype Worker = Worker(queue: Queue, pc: Pc)

  datatype Phase = Ready | Pushed | Posting | Unlocking

  /** A thread that may call `QueueCmd`. It either counted a reference (`GetDevice`) or borrows the
      device inside an `OnAttached` callback, while the list entry cannot be erased. */
  datatype Producer = Idle | At(dev: nat, counted: bool, queue: Queue, phase: Phase)

  datatype Event =
    | Queued(slot: Slot, cmd: Cmd)
    | Dequeued(slot: Slot, cmd: Cmd)
    | Called(slot: Slot, cmd: Cmd, callback: Callback)
    | Freed(slot: Slot, cmd: Cmd)

  /** Where an accepted command is. */
  datatype Fate = InQueue(slot: Slot) | InService(slot: Slot, worker: nat, progress: Progress)
                | Over(slot: Slot, last: Callback)

  /** `log` and `fate` are history; no step reads them except to keep serial numbers fresh. */
  datatype State = State(
    slots: map<Slot, Lane>, devs: map<nat, Device>,
    exec: seq<seq<nat>>, sem: seq<nat>,
    workers: seq<Worker>, producers: seq<Producer>,
    quit: bool, posts: seq<nat>,
    log: seq<Event>, fate: map<Cmd, Fate>)

  datatype Label =
    | Create(dev: nat) | Insert(dev: nat) | CenterAddRef(dev: nat)
    | Erase(dev: nat) | CenterRelease(dev: nat) | MonRelease(dev: nat)
    | Get(p: nat, dev: nat) | Borrow(p: nat, dev: nat) | Push(p: nat, queue: Queue, cmd: Cmd)
    | Request(p: nat) | Post(p: nat) | Unlock(p: nat) | Drop(p: nat)
    | Look(w: nat) | Wake(w: nat) | Fetch(w: nat) | Take(w: nat)
    | Call(w: nat, callback: Callback) | FreeRec(w: nat) | Release(w: nat)
    | Quit | QuitPost(queue: Queue)

  // ---------------------------------------------------------------- small readers

  /** There is one list, one semaphore and one count of due posts for each of the four queues. */
  predicate Shape(s: State) { |s.exec| == 4 && |s.sem| == 4 && |s.posts| == 4 }

  /** A queue no command has reached yet is empty. */
  function LaneOf(slots: map<Slot, Lane>, k: Slot): Lane {
    if k in slots then slots[k] else Lane([], false, None)
  }

  /** A device the monitor has not created yet is unborn. */
  function DevOf(devs: map<nat, Device>, d: nat): Device {
    if d in devs then devs[d] else Device(0, Unborn, 0)
  }

  predicate Listed(stage: Stage) { stage.Inserted? || stage.Attached? }

  predicate InRegion(pr: Producer, k: Slot) {
    pr.At? && !pr.phase.Ready? && pr.dev == k.dev && pr.queue == k.queue
  }

  predicate Serves(wk: Worker, k: Slot) {
    (wk.pc.Popped? || wk.pc.Serving? || wk.pc.Relock?) && wk.pc.dev == k.dev && wk.queue == k.queue
  }

  predicate Awake(pc: Pc) { !pc.Check? && !pc.Waiting? && !pc.Left? }

  function WorkerSlot(wk: Worker): Slot
    requires wk.pc.Popped? || wk.pc.Serving? || wk.pc.Relock? || wk.pc.Releasing?
  {
    Slot(wk.pc.dev, wk.queue)
  }

  function ProducerSlot(pr: Producer): Slot
    requires pr.At?
  {
    Slot(pr.dev, pr.queue)
  }

  // ---------------------------------------------------------------- reference counting

  function AddRef(s: State, d: nat): State
  {
    s.(devs := s.devs[d := DevOf(s.devs, d).(refs := DevOf(s.devs, d).refs + 1)])
  }

  function Flushed(cmds: seq<Cmd>, k: Slot): seq<Event> {
    if cmds == [] then []
    else [Dequeued(k, cmds[0]), Called(k, cmds[0], OnCancelled), Freed(k, cmds[0])] + Flushed(cmds[1..], k)
  }

  function FlushQueue(s: State, k: Slot): State
  {
    var cmds := LaneOf(s.slots, k).cmds;
    if cmds == [] then s else
    s.(slots := s.slots[k := LaneOf(s.slots, k).(cmds := [])],
       log := s.log + Flushed(cmds, k),
       fate := map c | c in s.fate :: if c in cmds then Over(k, OnCancelled) else s.fate[c])
  }

  /** The destructor: `FlushCmds` cancels whatever is still queued on the four queues. */
  function Destroy(s: State, d: nat): State
  {
    var s1 := s.(devs := s.devs[d := DevOf(s.devs, d).(destroyed := DevOf(s.devs, d).destroyed + 1)]);
    FlushQueue(FlushQueue(FlushQueue(FlushQueue(s1, Slot(d, 0)), Slot(d, 1)), Slot(d, 2)), Slot(d, 3))
  }

  /** PObject::Release: the last reference deletes the object. */
  function ReleaseRef(s: State, d: nat): State
  {
    var s1 := s.(devs := s.devs[d := DevOf(s.devs, d).(refs := DevOf(s.devs, d).refs - 1)]);
    if DevOf(s1.devs, d).refs == 0 then Destroy(s1, d) else s1
  }

  // ---------------------------------------------------------------- updates of one thread

  function AtWorker(s: State, w: nat, pc: Pc): State
    requires w < |s.workers|
  {
    s.(workers := s.workers[w := s.workers[w].(pc := pc)])
  }

  function AtPhase(s: State, p: nat, phase: Phase): State
    requires p < |s.producers| && s.producers[p].At?
  {
    s.(producers := s.producers[p := s.producers[p].(phase := phase)])
  }

  function Staged(s: State, d: nat, stage: Stage): State
  {
    s.(devs := s.devs[d := DevOf(s.devs, d).(stage := stage)])
  }

  // ---------------------------------------------------------------- the transition relation

  predicate WorkerAt(s: State, w: nat) { w < |s.workers| }

  predicate ProducerAt(s: State, p: nat, phase: Phase) {
    p < |s.producers| && s.producers[p].At? && s.producers[p].phase == phase
  }

  predicate Answers(progress: Progress, cb: Callback) {
    match progress
    case Taken => cb.OnExecuting? || cb.OnCancelled?
    case Executing => cb.OnExecuted? || cb.OnFailed?
    case Finished(_) => false
  }

  predicate Enabled(s: State, l: Label)
    requires Shape(s)
  {
    match l
    case Create(d) => DevOf(s.devs, d).stage == Unborn
    case Insert(d) => DevOf(s.devs, d).stage == New
    case CenterAddRef(d) => DevOf(s.devs, d).stage == Inserted
    case Erase(d) =>
      && DevOf(s.devs, d).stage == Attached
      && forall p | 0 <= p < |s.producers| ::
           s.producers[p].At? && s.producers[p].dev == d ==> s.producers[p].counted
    case CenterRelease(d) => DevOf(s.devs, d).stage == Erased
    case MonRelease(d) => DevOf(s.devs, d).stage == CenterReleased
    case Get(p, d) => p < |s.producers| && s.producers[p] == Idle && Listed(DevOf(s.devs, d).stage)
    case Borrow(p, d) => p < |s.producers| && s.producers[p] == Idle && Listed(DevOf(s.devs, d).stage)
    case Push(p, q, c) =>
      && ProducerAt(s, p, Ready)
      && LaneOf(s.slots, Slot(s.producers[p].dev, q)).lock == None && c !in s.fate
    case Request(p) => ProducerAt(s, p, Pushed)
    case Post(p) => ProducerAt(s, p, Posting)
    case Unlock(p) => ProducerAt(s, p, Unlocking)
    case Drop(p) => ProducerAt(s, p, Ready)
    case Look(w) => WorkerAt(s, w) && s.workers[w].pc == Check
    case Wake(w) => WorkerAt(s, w) && s.workers[w].pc == Waiting && s.sem[s.workers[w].queue] > 0
    case Fetch(w) => WorkerAt(s, w) && s.workers[w].pc == AtList
    case Take(w) =>
      && WorkerAt(s, w) && (s.workers[w].pc.Popped? || s.workers[w].pc.Relock?)
      && LaneOf(s.slots, WorkerSlot(s.workers[w])).lock == None
    case Call(w, cb) => WorkerAt(s, w) && s.workers[w].pc.Serving? && Answers(s.workers[w].pc.progress, cb)
    case FreeRec(w) => WorkerAt(s, w) && s.workers[w].pc.Serving? && s.workers[w].pc.progress.Finished?
    case Release(w) => WorkerAt(s, w) && s.workers[w].pc.Releasing?
    case Quit => !s.quit
    case QuitPost(q) => s.quit && s.posts[q] > 0
  }

  // The effects of the longer steps, one function a step.

  function AfterPush(s: State, p: nat, q: Queue, c: Cmd): State
    requires ProducerAt(s, p, Ready)
  {
    var pr := s.producers[p];
    var k := Slot(pr.dev, q);
    var lane := LaneOf(s.slots, k);
    var cmds := lane.cmds + [c];
    var first := |cmds| == 1 && !lane.running;
    s.(slots := s.slots[k := lane.(cmds := cmds, lock := if first then Some(p) else None)],
       producers := s.producers[p := pr.(queue := q, phase := if first then Pushed else Ready)],
       log := s.log + [Queued(k, c)], fate := s.fate[c := InQueue(k)])
  }

  function AfterRequest(s: State, p: nat): State
    requires Shape(s) && ProducerAt(s, p, Pushed)
  {
    var pr := s.producers[p];
    var list := s.exec[pr.queue];
    if pr.dev in list then AtPhase(s, p, Unlocking)          // ERROR_ALREADY_EXISTS
    else AtPhase(AddRef(s, pr.dev), p, if list == [] then Posting else Unlocking)
         .(exec := s.exec[pr.queue := list + [pr.dev]])
  }

  function AfterUnlock(s: State, p: nat): State
    requires ProducerAt(s, p, Unlocking)
  {
    var k := ProducerSlot(s.producers[p]);
    AtPhase(s, p, Ready).(slots := s.slots[k := LaneOf(s.slots, k).(lock := None)])
  }

  function AfterFetch(s: State, w: nat): State
    requires Shape(s) && WorkerAt(s, w)
  {
    var q := s.workers[w].queue;
    if s.exec[q] == [] then AtWorker(s, w, Check)
    else AtWorker(s, w, Popped(s.exec[q][0])).(exec := s.exec[q := s.exec[q][1..]])
  }

  function AfterTake(s: State, w: nat): State
    requires WorkerAt(s, w) && (s.workers[w].pc.Popped? || s.workers[w].pc.Relock?)
  {
    var k := WorkerSlot(s.workers[w]);
    var lane := LaneOf(s.slots, k);
    if lane.cmds == [] then
      AtWorker(s, w, Releasing(k.dev)).(slots := s.slots[k := lane.(running := false)])
    else
      var c := lane.cmds[0];
      AtWorker(s, w, Serving(k.dev, c, Taken))
      .(slots := s.slots[k := lane.(running := true, cmds := lane.cmds[1..])],
        log := s.log + [Dequeued(k, c)], fate := s.fate[c := InService(k, w, Taken)])
  }

  function AfterCall(s: State, w: nat, cb: Callback): State
    requires WorkerAt(s, w) && s.workers[w].pc.Serving?
  {
    var k := WorkerSlot(s.workers[w]);
    var c := s.workers[w].pc.cmd;
    var progress := if cb.OnExecuting? then Executing else Finished(cb);
    AtWorker(s, w, Serving(k.dev, c, progress))
    .(log := s.log + [Called(k, c, cb)], fate := s.fate[c := InService(k, w, progress)])
  }

  function AfterFreeRec(s: State, w: nat): State
    requires WorkerAt(s, w) && s.workers[w].pc.Serving? && s.workers[w].pc.progress.Finished?
  {
    var k := WorkerSlot(s.workers[w]);
    var c := s.workers[w].pc.cmd;
    AtWorker(s, w, Relock(k.dev))
    .(log := s.log + [Freed(k, c)], fate := s.fate[c := Over(k, s.workers[w].pc.progress.last)])
  }

  /** The effect of a step, apart from a destructor call that a dropped reference may cause. */
  function Effect(s: State, l: Label): State
    requires Shape(s) && Enabled(s, l)
  {
    match l
    case Create(d) => Staged(AddRef(s, d), d, New)
    case Insert(d) => Staged(s, d, Inserted)
    case CenterAddRef(d) => Staged(AddRef(s, d), d, Attached)
    case Erase(d) => Staged(s, d, Erased)
    case CenterRelease(d) => Staged(s, d, CenterReleased)
    case MonRelease(d) => Staged(s, d, Gone)
    case Get(p, d) => AddRef(s, d).(producers := s.producers[p := At(d, true, 0, Ready)])
    case Borrow(p, d) => s.(producers := s.producers[p := At(d, false, 0, Ready)])
    case Push(p, q, c) => AfterPush(s, p, q, c)
    case Request(p) => AfterRequest(s, p)
    case Post(p) =>
      var q := s.producers[p].queue;
      AtPhase(s, p, Unlocking).(sem := s.sem[q := s.sem[q] + 1])
    case Unlock(p) => AfterUnlock(s, p)
    case Drop(p) => s.(producers := s.producers[p := Idle])
    case Look(w) => AtWorker(s, w, if s.quit then Left else Waiting)
    case Wake(w) =>
      var q := s.workers[w].queue;
      AtWorker(s, w, AtList).(sem := s.sem[q := s.sem[q] - 1])
    case Fetch(w) => AfterFetch(s, w)
    case Take(w) => AfterTake(s, w)
    case Call(w, cb) => AfterCall(s, w, cb)
    case FreeRec(w) => AfterFreeRec(s, w)
    case Release(w) => AtWorker(s, w, AtList)
    case Quit => s.(quit := true, posts := THREAD_MAP)
    case QuitPost(q) => s.(posts := s.posts[q := s.posts[q] - 1], sem := s.sem[q := s.sem[q] + 1])
  }

  /** The device whose reference a step gives back, if any. */
  function Drops(s: State, l: Label): Option<nat>
    requires Shape(s) && Enabled(s, l)
  {
    match l
    case CenterRelease(d) => Some(d)
    case MonRelease(d) => Some(d)
    case Drop(p) => if s.producers[p].counted then Some(s.producers[p].dev) else None
    case Release(w) => Some(s.workers[w].pc.dev)
    case _ => None
  }

  function Next(s: State, l: Label): State
    requires Shape(s) && Enabled(s, l)
  {
    var s1 := Effect(s, l);
    match Drops(s, l) case None => s1 case Some(d) => ReleaseRef(s1, d)
  }

  /** The positions of a list whose elements satisfy `f`. */
  function Where<T>(list: seq<T>, f: T -> bool): set<nat> {
    set i | 0 <= i < |list| && f(list[i])
  }

  function Pool(workers: seq<Worker>, q: Queue): set<nat> {
    Where(workers, (wk: Worker) => wk.queue == q)
  }

  predicate Init(s: State) {
    && Shape(s)
    && s.slots == map[] && s.devs == map[]
    && s.exec == [[], [], [], []] && s.sem == [0, 0, 0, 0] && s.posts == [0, 0, 0, 0] && !s.quit
    && (forall w | 0 <= w < |s.workers| :: s.workers[w].pc == Check)
    && (forall q: Queue :: |Pool(s.workers, q)| <= THREAD_MAP[q])
    && (forall p | 0 <= p < |s.producers| :: s.producers[p] == Idle)
    && s.log == [] && s.fate == map[]
  }

  /** A run: consecutive states joined by enabled labels. */
  ghost predicate IsRun(states: seq<State>, labels: seq<Label>) {
    && |states| == |labels| + 1
    && forall i | 0 <= i < |labels| ::
         Shape(states[i]) && Enabled(states[i], labels[i]) && states[i + 1] == Next(states[i], labels[i])
  }
}
