/** Which commands are lost at shutdown. */
module SchedulerShutdown {
  import opened Basics
  import opened Scheduler
  import opened SchedulerInvariant
  import opened SchedulerRecords
  import opened SchedulerRefs
  import opened SchedulerWake
  import opened SchedulerRuns
  import opened SchedulerFuel
  import opened SchedulerProgress
  import opened SchedulerFinish

  // A worker that finds the quit flag set leaves without looking at its list, so a command can be lost: it
  // stays queued and nobody is ever told. Exactly when that happens is decided by where the workers are when
  // the flag is set.

  ghost predicate AllLeft(s: State) { forall w | 0 <= w < |s.workers| :: s.workers[w].pc.Left? }

  /** Nobody is between queueing a command and putting the device on its list. */
  ghost predicate NoWindow(s: State) { forall p :: !ProducerAt(s, p, Pushed) }

  ghost predicate AllOver(s: State) { forall c | c in s.fate :: s.fate[c].Over? }

  /** Some worker of the queue has yet to look at the list, waiting or at work, but not about to test the flag. */
  ghost predicate WillLook(s: State, q: Queue) {
    exists w :: 0 <= w < |s.workers| && s.workers[w].queue == q && !s.workers[w].pc.Check? && !s.workers[w].pc.Left?
  }

  /** Nothing is on the list, or it will be looked at. */
  ghost predicate Covered(s: State, q: Queue)
    requires Shape(s)
  {
    s.exec[q] == [] || WillLook(s, q)
  }

  // ---------------------------------------------------------------- where everybody has left

  /** In any run: when all workers have left, every accepted command is done if and only if all lists are empty
      and nobody is about to put a device on one. */
  lemma DoneIffUnlisted(s: State)
    requires Reachable(s) && AllLeft(s)
    ensures Shape(s) && (AllOver(s) <==> NoWindow(s) && forall q: Queue :: s.exec[q] == [])
  {
    ReachableInv(s);
    if q: Queue :| s.exec[q] != [] {
      ListedIsLost(s, q);
    } else if p: nat :| ProducerAt(s, p, Pushed) {
      PushedIsLost(s, p);
    } else {
      forall c | c in s.fate ensures s.fate[c].Over? {
        if s.fate[c].InQueue? {
          NothingQueuedAt(s, s.fate[c].slot);
        }
      }
    }
  }

  lemma QueuedIsLost(s: State, k: Slot)
    requires Inv(s) && LaneOf(s.slots, k).cmds != []
    ensures !AllOver(s)
  {
    assert QueuedAt(s, k);
    assert LaneOf(s.slots, k).cmds[0] in LaneOf(s.slots, k).cmds;
  }

  lemma ListedIsLost(s: State, q: Queue)
    requires Inv(s) && s.exec[q] != []
    ensures !AllOver(s)
  {
    var k := Slot(s.exec[q][0], q);
    assert SlotOk(s, k) && InList(s, k);
    QueuedIsLost(s, k);
  }

  lemma PushedIsLost(s: State, p: nat)
    requires Inv(s) && ProducerAt(s, p, Pushed)
    ensures !AllOver(s)
  {
    var k := ProducerSlot(s.producers[p]);
    assert InWindow(s, k) && SlotOk(s, k);
    QueuedIsLost(s, k);
  }

  lemma NothingQueuedAt(s: State, k: Slot)
    requires Inv(s) && AllLeft(s) && NoWindow(s) && s.exec[k.queue] == []
    ensures LaneOf(s.slots, k).cmds == [] && QueuedAt(s, k)
  {
    assert SlotOk(s, k);
    assert Servers(s.workers, k) == {};
  }

  // ---------------------------------------------------------------- after the flag is set

  /** A step without new work leaves a covered list covered, and one that is not as it is. */
  ghost predicate Decided(s: State, t: State, q: Queue)
    requires Shape(s) && Shape(t)
  {
    Covered(s, q) <==> Covered(t, q)
  }

  /** One worker moved; its list lost its head, or nothing. */
  lemma WorkerDecides(s: State, t: State, w: nat, q: Queue)
    requires Shape(s) && Shape(t) && s.quit && WorkerOnly(s, t, w)
    requires t.exec[q] == s.exec[q] || s.workers[w].queue == q
    requires var a, b := s.workers[w].pc, t.workers[w].pc;
      && (a.Check? ==> b.Left?) && !a.Left?
      && (b.Check? || b.Left? ==> a.Check? || s.exec[s.workers[w].queue] == [])
      && (a.Check? || s.exec[q] == [] ==> t.exec[q] == s.exec[q])
    ensures Decided(s, t, q)
  {
    if WillLook(s, q) {
      var v :| 0 <= v < |s.workers| && s.workers[v].queue == q && !s.workers[v].pc.Check? && !s.workers[v].pc.Left?;
      assert v != w ==> t.workers[v] == s.workers[v];
    }
    if WillLook(t, q) {
      var v :| 0 <= v < |t.workers| && t.workers[v].queue == q && !t.workers[v].pc.Check? && !t.workers[v].pc.Left?;
      assert v != w ==> t.workers[v] == s.workers[v];
    }
  }

  lemma LoopMoves(s: State, l: Label, q: Queue)
    requires Shape(s) && Enabled(s, l) && ByWorker(l) && !InExecute(l) && s.quit
    ensures var t := Effect(s, l);
      && Shape(t) && WorkerOnly(s, t, l.w) && (t.exec[q] == s.exec[q] || s.workers[l.w].queue == q)
      && var a, b := s.workers[l.w].pc, t.workers[l.w].pc;
         && (a.Check? ==> b.Left?) && !a.Left?
         && (b.Check? || b.Left? ==> a.Check? || s.exec[s.workers[l.w].queue] == [])
         && (a.Check? || s.exec[q] == [] ==> t.exec[q] == s.exec[q])
  {
    KeepShape(s, l);
    LoopFrame(s, l);
  }

  lemma ExecuteMoves(s: State, l: Label)
    requires Shape(s) && Enabled(s, l) && InExecute(l)
    ensures var t := Effect(s, l);
      && Shape(t) && WorkerOnly(s, t, l.w) && t.exec == s.exec && Awake(s.workers[l.w].pc) && Awake(t.workers[l.w].pc)
  {
    ExecuteStaysAwake(s, l);
  }

  /** At most one caller moved, and it is not in the window. */
  lemma NoWindowStays(s: State, t: State, p: nat)
    requires NoWindow(s) && p < |s.producers| == |t.producers| && t.producers == s.producers[p := t.producers[p]]
    requires !ProducerAt(t, p, Pushed)
    ensures NoWindow(t)
  {
    forall r ensures !ProducerAt(t, r, Pushed) { assert !ProducerAt(s, r, Pushed); }
  }

  /** No list gets longer, no worker moves. */
  lemma ProducerMoves(s: State, l: Label)
    requires Shape(s) && Enabled(s, l) && ByProducer(l) && Quiet(l) && NoWindow(s)
    ensures var t := Effect(s, l); Shape(t) && t.exec == s.exec && t.workers == s.workers && NoWindow(t)
  {
    KeepShape(s, l);
    ProducerFrame(s, l);
    PushedStays(s, l);
    NoWindowStays(s, Effect(s, l), l.p);
  }

  lemma PushedStays(s: State, l: Label)
    requires Shape(s) && Enabled(s, l) && ByProducer(l) && Quiet(l) && !l.Request?
    ensures Effect(s, l).exec == s.exec
    ensures |Effect(s, l).producers| == |s.producers| && !ProducerAt(Effect(s, l), l.p, Pushed)
  {
  }

  lemma OthersMove(s: State, l: Label)
    requires Shape(s) && Enabled(s, l) && (ByMonitor(l) || ByCleanup(l))
    ensures var t := Effect(s, l);
      Shape(t) && t.exec == s.exec && t.workers == s.workers && t.producers == s.producers
  {
    if ByMonitor(l) {
      MonitorFrame(s, l);
    } else {
      CleanupFrame(s, l);
    }
    KeepShape(s, l);
  }

  lemma SameCallers(s: State, t: State)
    requires NoWindow(s) && t.producers == s.producers
    ensures NoWindow(t)
  {
    forall r ensures !ProducerAt(t, r, Pushed) { assert !ProducerAt(s, r, Pushed); }
  }

  lemma EffectDecides(s: State, l: Label, q: Queue)
    requires Shape(s) && s.quit && NoWindow(s) && Enabled(s, l) && Quiet(l)
    ensures Shape(Effect(s, l)) && Decided(s, Effect(s, l), q) && NoWindow(Effect(s, l))
  {
    if InExecute(l) {
      ExecuteMoves(s, l);
      WorkerDecides(s, Effect(s, l), l.w, q);
      SameCallers(s, Effect(s, l));
    } else if ByWorker(l) {
      LoopMoves(s, l, q);
      WorkerDecides(s, Effect(s, l), l.w, q);
      SameCallers(s, Effect(s, l));
    } else if ByProducer(l) {
      ProducerMoves(s, l);
    } else {
      OthersMove(s, l);
      SameCallers(s, Effect(s, l));
    }
  }

  /** Setting the flag decides nothing yet. */
  lemma QuitDecides(s: State, q: Queue)
    requires Shape(s) && NoWindow(s) && Enabled(s, Quit)
    ensures Shape(Effect(s, Quit)) && Decided(s, Effect(s, Quit), q) && NoWindow(Effect(s, Quit))
    ensures Effect(s, Quit).quit
  {
    OthersMove(s, Quit);
    SameCallers(s, Effect(s, Quit));
  }

  lemma StepDecides(s: State, l: Label, q: Queue)
    requires Inv(s) && NoWindow(s) && Enabled(s, l) && (l.Quit? || (s.quit && Quiet(l)))
    ensures var t := Next(s, l); Shape(t) && t.quit && Decided(s, t, q) && NoWindow(t)
  {
    FlushCancelsNothing(s, l);
    if l.Quit? {
      QuitDecides(s, q);
    } else {
      EffectDecides(s, l, q);
      EffectKeepsStaff(s, l);
    }
    SameCallers(Effect(s, l), Next(s, l));
  }

  /** From state `i` on the flag is set, or is set by the very next step, and after that no new work comes. */
  ghost predicate ShutsDown(states: seq<State>, labels: seq<Label>, i: nat) {
    && IsRun(states, labels) && Init(states[0]) && i < |states|
    && (states[i].quit || (i < |labels| && labels[i].Quit?))
    && (forall k | i < k < |labels| :: Quiet(labels[k]))
    && (states[i].quit && i < |labels| ==> Quiet(labels[i]))
  }

  /** What state `i` decides for queue `q` is still so in state `t`. */
  ghost predicate StillDecided(s: State, t: State, q: Queue) {
    Shape(s) && Shape(t) && Decided(s, t, q) && NoWindow(t)
  }

  lemma ShutStep(states: seq<State>, labels: seq<Label>, i: nat, k: nat)
    requires ShutsDown(states, labels, i) && i <= k < |labels| && (states[k].quit || k == i)
    ensures Inv(states[k]) && Enabled(states[k], labels[k]) && states[k + 1] == Next(states[k], labels[k])
    ensures labels[k].Quit? || (states[k].quit && Quiet(labels[k]))
  {
    RunInv(states, labels, k);
  }

  lemma DecidedOn(s: State, t: State, l: Label, q: Queue)
    requires StillDecided(s, t, q) && Inv(t) && Enabled(t, l) && (l.Quit? || (t.quit && Quiet(l)))
    ensures StillDecided(s, Next(t, l), q) && Next(t, l).quit
  {
    StepDecides(t, l, q);
  }

  lemma {:induction false} RunDecides(states: seq<State>, labels: seq<Label>, i: nat, j: nat, q: Queue)
    requires ShutsDown(states, labels, i) && NoWindow(states[i]) && i <= j < |states|
    ensures StillDecided(states[i], states[j], q) && (states[j].quit || j == i)
  {
    if j == i {
      RunInv(states, labels, j);
    } else {
      RunDecides(states, labels, i, j - 1, q);
      ShutStep(states, labels, i, j - 1);
      DecidedOn(states[i], states[j - 1], labels[j - 1], q);
    }
  }

  lemma LeftCovers(s: State, q: Queue)
    requires Shape(s) && AllLeft(s)
    ensures Covered(s, q) <==> s.exec[q] == []
  {
  }

  /** In every run: once the flag is set or about to be, no caller is in the window and no new work comes, it is
      decided what happens. When all workers have left, every accepted command is done if and only if now each
      list is empty or has a worker that is not about to test the flag. */
  lemma DoneIffCovered(states: seq<State>, labels: seq<Label>, i: nat, j: nat)
    requires ShutsDown(states, labels, i) && NoWindow(states[i]) && i <= j < |states| && AllLeft(states[j])
    ensures Shape(states[i]) && (AllOver(states[j]) <==> forall q: Queue :: Covered(states[i], q))
  {
    RunDecides(states, labels, i, j, 0);
    forall q: Queue ensures Covered(states[i], q) <==> states[j].exec[q] == [] {
      RunDecides(states, labels, i, j, q);
      LeftCovers(states[j], q);
    }
    RunReaches(states, labels, j);
    DoneIffUnlisted(states[j]);
  }

  lemma RunReaches(states: seq<State>, labels: seq<Label>, j: nat)
    requires IsRun(states, labels) && Init(states[0]) && j < |states|
    ensures Reachable(states[j])
  {
    assert IsRun(states[..j + 1], labels[..j]);
    ReachedBy(states[..j + 1], labels[..j]);
  }

  // ---------------------------------------------------------------- a run that loses a command

  const LOST_CMD := Cmd(0, OtherCmd)
  const LOST_SLOT := Slot(0, 0)
  const LISTS: seq<seq<nat>> := [[], [], [], []]
  const ZEROS: seq<nat> := [0, 0, 0, 0]

  /** One worker, one device, one command; the flag is set before the worker has ever waited. */
  const LOST_STEPS: seq<Label> := [Create(0), Insert(0), CenterAddRef(0), Get(0, 0), Push(0, 0, LOST_CMD), Request(0),
                                   Post(0), Unlock(0), Drop(0), Quit, Look(0)]

  /** Before the command is queued: a device with so many references, and where the caller is. */
  function Before(devs: map<nat, Device>, pr: Producer): State {
    State(map[], devs, LISTS, ZEROS, [Worker(0, Check)], [pr], false, ZEROS, [], map[])
  }

  /** And afterwards. */
  function After(lock: Option<nat>, refs: int, list: seq<nat>, sem: nat, pc: Pc, pr: Producer, quit: bool): State {
    State(map[LOST_SLOT := Lane([LOST_CMD], false, lock)], map[0 := Device(refs, Attached, 0)],
          [list, [], [], []], [sem, 0, 0, 0], [Worker(0, pc)], [pr], quit, if quit then THREAD_MAP else ZEROS,
          [Queued(LOST_SLOT, LOST_CMD)], map[LOST_CMD := InQueue(LOST_SLOT)])
  }

  function LostState(i: nat): State {
    match i
    case 0 => Before(map[], Idle)
    case 1 => Before(map[0 := Device(1, New, 0)], Idle)
    case 2 => Before(map[0 := Device(1, Inserted, 0)], Idle)
    case 3 => Before(map[0 := Device(2, Attached, 0)], Idle)
    case 4 => Before(map[0 := Device(3, Attached, 0)], At(0, true, 0, Phase.Ready))
    case 5 => After(Some(0), 3, [], 0, Check, At(0, true, 0, Pushed), false)
    case 6 => After(Some(0), 4, [0], 0, Check, At(0, true, 0, Posting), false)
    case 7 => After(Some(0), 4, [0], 1, Check, At(0, true, 0, Unlocking), false)
    case 8 => After(None, 4, [0], 1, Check, At(0, true, 0, Phase.Ready), false)
    case 9 => After(None, 3, [0], 1, Check, Idle, false)
    case 10 => After(None, 3, [0], 1, Check, Idle, true)
    case _ => After(None, 3, [0], 1, Left, Idle, true)
  }

  ghost predicate LostStepOk(i: nat) {
    var s := LostState(i);
    i < 11 && Shape(s) && Enabled(s, LOST_STEPS[i]) && LostState(i + 1) == Next(s, LOST_STEPS[i])
  }

  lemma LostCreate()
    ensures LostStepOk(0)
  {
  }

  lemma LostInsert()
    ensures LostStepOk(1) && LostStepOk(2)
  {
  }

  lemma LostGet()
    ensures LostStepOk(3)
  {
  }

  lemma LostPush()
    ensures LostStepOk(4)
  {
    var t, u := AfterPush(LostState(4), 0, 0, LOST_CMD), LostState(5);
    assert LaneOf(t.slots, LOST_SLOT).cmds == [LOST_CMD];
    assert t.slots == u.slots && t.producers == u.producers && t.log == u.log && t.fate == u.fate;
  }

  lemma LostRequest()
    ensures LostStepOk(5)
  {
    var t, u := AfterRequest(LostState(5), 0), LostState(6);
    assert LISTS[0] + [0] == [0] && LISTS[0 := [0]] == u.exec;
    assert t.exec == u.exec && t.devs == u.devs && t.producers == u.producers;
  }

  lemma LostPost()
    ensures LostStepOk(6)
  {
  }

  lemma LostUnlock()
    ensures LostStepOk(7)
  {
  }

  lemma LostDrop()
    ensures LostStepOk(8)
  {
  }

  lemma LostQuit()
    ensures LostStepOk(9)
  {
  }

  lemma LostLook()
    ensures LostStepOk(10)
  {
    assert LostState(10).workers[0 := Worker(0, Left)] == LostState(11).workers;
  }

  lemma LostInit()
    ensures Init(LostState(0))
  {
    var ws := LostState(0).workers;
    forall q: Queue ensures |Pool(ws, q)| <= THREAD_MAP[q] {
      assert Pool(ws, q) == if q == 0 then {0} else {};
    }
  }

  lemma LostStepHolds(i: nat)
    requires i < 11
    ensures LostStepOk(i)
  {
    if i < 3 {
      LostCreate();
      LostInsert();
    } else if i < 5 {
      LostGet();
      LostPush();
    } else if i < 7 {
      LostRequest();
      LostPost();
    } else if i < 9 {
      LostUnlock();
      LostDrop();
    } else {
      LostQuit();
      LostLook();
    }
  }

  ghost predicate IsLostRun(states: seq<State>, labels: seq<Label>) {
    labels == LOST_STEPS && |states| == 12 && forall i | 0 <= i < 12 :: states[i] == LostState(i)
  }

  lemma LostRun(states: seq<State>, labels: seq<Label>)
    requires IsLostRun(states, labels)
    ensures IsRun(states, labels) && Init(states[0])
  {
    LostInit();
    forall i | 0 <= i < 11
      ensures Shape(states[i]) && Enabled(states[i], labels[i]) && states[i + 1] == Next(states[i], labels[i])
    {
      LostStepHolds(i);
    }
  }

  lemma LostShutsDown(states: seq<State>, labels: seq<Label>)
    requires IsRun(states, labels) && Init(states[0]) && labels == LOST_STEPS && !states[9].quit
    ensures ShutsDown(states, labels, 9)
  {
    forall k | 9 < k < |labels| ensures Quiet(labels[k]) { assert labels[10] == Look(0); }
  }

  lemma LostEnds()
    ensures NoWindow(LostState(9)) && Shape(LostState(9)) && !Covered(LostState(9), 0)
    ensures var t := LostState(11); AllLeft(t) && LOST_CMD in t.fate && !t.fate[LOST_CMD].Over?
  {
  }

  /** The command is queued, the worker has left, and nobody will ever be told. */
  lemma CommandIsLost() returns (states: seq<State>, labels: seq<Label>)
    ensures IsRun(states, labels) && Init(states[0]) && labels == LOST_STEPS
    ensures AllLeft(states[11]) && LOST_CMD in states[11].fate && !states[11].fate[LOST_CMD].Over?
    ensures ShutsDown(states, labels, 9) && NoWindow(states[9]) && !Covered(states[9], 0)
  {
    states := seq(12, i requires 0 <= i < 12 => LostState(i));
    labels := LOST_STEPS;
    LostRun(states, labels);
    LostShutsDown(states, labels);
    LostEnds();
  }
}
