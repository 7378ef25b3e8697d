/** The life of one command record, from `QueueCmd` to `FreeCmdRec`: its fate says where it is, in a queue, in
    the hands of one worker, or deleted, and what its observer has been told by then; the queues and the
    workers agree with it. Each group of steps keeps that, a push, a take, a callback and the deletion being
    the ones that move a record on. */
module SchedulerRecords {
  import opened Basics
  import opened Scheduler
  import opened SchedulerInvariant

  /** Everything that was ever logged about one record. */
  function Story(log: seq<Event>, c: Cmd): seq<Event> {
    if log == [] then []
    else
      var e := log[|log| - 1];
      Story(log[..|log| - 1], c) + (if e.cmd == c then [e] else [])
  }

  /** The callbacks a record has seen: nothing, OnExecuting, OnCancelled alone, or OnExecuting and
      then one of OnExecuted and OnFailed. */
  function Calls(k: Slot, c: Cmd, progress: Progress): seq<Event> {
    match progress
    case Taken => []
    case Executing => [Called(k, c, OnExecuting)]
    case Finished(last) =>
      if last.OnCancelled? then [Called(k, c, OnCancelled)]
      else [Called(k, c, OnExecuting), Called(k, c, last)]
  }

  /** The only story a record can have, given where it is now. */
  function Tale(c: Cmd, fate: Fate): seq<Event> {
    match fate
    case InQueue(k) => [Queued(k, c)]
    case InService(k, _, progress) => [Queued(k, c), Dequeued(k, c)] + Calls(k, c, progress)
    case Over(k, last) => [Queued(k, c), Dequeued(k, c)] + Calls(k, c, Finished(last)) + [Freed(k, c)]
  }

  /** A record is queued exactly where its fate says, and once. */
  ghost predicate QueuedAt(s: State, k: Slot) {
    && NoDup(LaneOf(s.slots, k).cmds)
    && (forall c :: c in LaneOf(s.slots, k).cmds <==> c in s.fate && s.fate[c] == InQueue(k))
  }

  /** A record is in a worker's hands exactly when its fate says so. */
  ghost predicate InHands(s: State) {
    && (forall w | 0 <= w < |s.workers| && s.workers[w].pc.Serving? ::
          var c := s.workers[w].pc.cmd;
          c in s.fate && s.fate[c] == InService(WorkerSlot(s.workers[w]), w, s.workers[w].pc.progress))
    && (forall c | c in s.fate && s.fate[c].InService? ::
          var f := s.fate[c];
          f.worker < |s.workers| && s.workers[f.worker] == Worker(f.slot.queue, Serving(f.slot.dev, c, f.progress)))
  }

  ghost predicate Places(s: State) { (forall k :: QueuedAt(s, k)) && InHands(s) }

  ghost predicate Told(s: State) {
    && (forall c :: Story(s.log, c) == if c in s.fate then Tale(c, s.fate[c]) else [])
    && (forall c | c in s.fate && s.fate[c].InService? :: s.fate[c].progress != Finished(OnExecuting))
    && (forall c | c in s.fate && s.fate[c].Over? :: s.fate[c].last != OnExecuting)
  }

  lemma StoryStep(log: seq<Event>, e: Event, c: Cmd)
    ensures Story(log + [e], c) == Story(log, c) + (if e.cmd == c then [e] else [])
  {
    assert (log + [e])[..|log|] == log;
  }

  lemma KeepPlacesPush(s: State, p: nat, q: Queue, c0: Cmd)
    requires Shape(s) && Places(s) && Enabled(s, Push(p, q, c0))
    ensures Places(AfterPush(s, p, q, c0))
  {
    var t := AfterPush(s, p, q, c0);
    LaneFrame(s.slots, t.slots, Slot(s.producers[p].dev, q));
    forall k ensures QueuedAt(t, k) { assert QueuedAt(s, k); }
  }

  /** The head of the queue goes into the worker's hands. */
  lemma KeepPlacesStart(s: State, w: nat)
    requires Shape(s) && Places(s) && Enabled(s, Take(w)) && LaneOf(s.slots, WorkerSlot(s.workers[w])).cmds != []
    ensures Places(AfterTake(s, w))
  {
    var t := AfterTake(s, w);
    var k0 := WorkerSlot(s.workers[w]);
    LaneFrame(s.slots, t.slots, k0);
    assert QueuedAt(s, k0);
    TailMembers(LaneOf(s.slots, k0).cmds);
    forall k ensures QueuedAt(t, k) { assert QueuedAt(s, k); }
  }

  lemma KeepPlacesStop(s: State, w: nat)
    requires Shape(s) && Places(s) && Enabled(s, Take(w)) && LaneOf(s.slots, WorkerSlot(s.workers[w])).cmds == []
    ensures Places(AfterTake(s, w))
  {
    var t := AfterTake(s, w);
    LaneFrame(s.slots, t.slots, WorkerSlot(s.workers[w]));
    forall k ensures QueuedAt(t, k) { assert QueuedAt(s, k); }
  }

  lemma KeepPlacesTake(s: State, w: nat)
    requires Shape(s) && Places(s) && Enabled(s, Take(w))
    ensures Places(AfterTake(s, w))
  {
    if LaneOf(s.slots, WorkerSlot(s.workers[w])).cmds == [] {
      KeepPlacesStop(s, w);
    } else {
      KeepPlacesStart(s, w);
    }
  }

  lemma KeepPlacesService(s: State, w: nat, t: State, fate: Fate)
    requires Places(s) && WorkerAt(s, w) && s.workers[w].pc.Serving? && t.slots == s.slots
    requires |t.workers| == |s.workers| && t.workers == s.workers[w := t.workers[w]]
    requires t.workers[w].queue == s.workers[w].queue && t.fate == s.fate[s.workers[w].pc.cmd := fate]
    requires match t.workers[w].pc
             case Serving(d, c, progress) =>
               d == s.workers[w].pc.dev && c == s.workers[w].pc.cmd
               && fate == InService(WorkerSlot(s.workers[w]), w, progress)
             case _ => fate.Over?
    ensures Places(t)
  {
    forall k ensures QueuedAt(t, k) { assert QueuedAt(s, k); }
  }

  lemma KeepPlacesIdle(s: State, w: nat, t: State)
    requires Places(s) && WorkerAt(s, w) && t.slots == s.slots && t.fate == s.fate
    requires |t.workers| == |s.workers| && t.workers == s.workers[w := t.workers[w]]
    requires !s.workers[w].pc.Serving? && !t.workers[w].pc.Serving?
    ensures Places(t)
  {
    forall k ensures QueuedAt(t, k) { assert QueuedAt(s, k); }
  }

  lemma KeepPlacesFrame(s: State, t: State)
    requires Places(s) && t.workers == s.workers && t.fate == s.fate
    requires forall k :: LaneOf(t.slots, k).cmds == LaneOf(s.slots, k).cmds
    ensures Places(t)
  {
    forall k ensures QueuedAt(t, k) { assert QueuedAt(s, k); }
  }

  lemma KeepPlacesInExecute(s: State, l: Label)
    requires Shape(s) && Places(s) && Enabled(s, l) && InExecute(l)
    ensures Places(Effect(s, l))
  {
    if l.Take? {
      KeepPlacesTake(s, l.w);
    } else {
      KeepPlacesService(s, l.w, Effect(s, l), Effect(s, l).fate[s.workers[l.w].pc.cmd]);
    }
  }

  lemma KeepPlacesInside(s: State, l: Label)
    requires Shape(s) && Places(s) && Enabled(s, l) && InQueueCmd(l)
    ensures Places(Effect(s, l))
  {
    if l.Push? {
      KeepPlacesPush(s, l.p, l.queue, l.cmd);
    } else {
      if l.Unlock? {
        LaneFrame(s.slots, Effect(s, l).slots, ProducerSlot(s.producers[l.p]));
      }
      KeepPlacesFrame(s, Effect(s, l));
    }
  }

  lemma LoopServesNothing(s: State, l: Label)
    requires Shape(s) && Enabled(s, l) && ByWorker(l) && !InExecute(l)
    ensures WorkerOnly(s, Effect(s, l), l.w)
    ensures !s.workers[l.w].pc.Serving? && !Effect(s, l).workers[l.w].pc.Serving?
  {
    WorkerFrame(s, l);
  }

  lemma KeepPlaces(s: State, l: Label)
    requires Shape(s) && Places(s) && Enabled(s, l)
    ensures Places(Effect(s, l))
  {
    if InQueueCmd(l) {
      KeepPlacesInside(s, l);
    } else if InExecute(l) {
      KeepPlacesInExecute(s, l);
    } else {
      NoWorkMoves(s, l);
      if ByWorker(l) {
        LoopServesNothing(s, l);
        KeepPlacesIdle(s, l.w, Effect(s, l));
      } else {
        KeepPlacesFrame(s, Effect(s, l));
      }
    }
  }

  /** One event was logged about record `e.cmd`, which moved on to `fate`. */
  lemma KeepToldStep(s: State, t: State, e: Event, fate: Fate)
    requires Told(s) && t.log == s.log + [e] && t.fate == s.fate[e.cmd := fate]
    requires Tale(e.cmd, fate) == (if e.cmd in s.fate then Tale(e.cmd, s.fate[e.cmd]) else []) + [e]
    requires fate.InService? ==> fate.progress != Finished(OnExecuting)
    requires fate.Over? ==> fate.last != OnExecuting
    ensures Told(t)
  {
    forall c ensures Story(t.log, c) == if c in t.fate then Tale(c, t.fate[c]) else [] {
      StoryStep(s.log, e, c);
    }
  }

  lemma KeepToldTake(s: State, w: nat)
    requires Shape(s) && Places(s) && Told(s) && Enabled(s, Take(w))
    ensures Told(Effect(s, Take(w)))
  {
    var k := WorkerSlot(s.workers[w]);
    var cmds := LaneOf(s.slots, k).cmds;
    if cmds != [] {
      assert QueuedAt(s, k) && cmds[0] in cmds;
      KeepToldStep(s, AfterTake(s, w), Dequeued(k, cmds[0]), InService(k, w, Taken));
    }
  }

  lemma KeepToldCall(s: State, w: nat, cb: Callback)
    requires Shape(s) && Places(s) && Told(s) && Enabled(s, Call(w, cb))
    ensures Told(Effect(s, Call(w, cb)))
  {
    var t := AfterCall(s, w, cb);
    KeepToldStep(s, t, t.log[|s.log|], t.fate[s.workers[w].pc.cmd]);
  }

  lemma KeepToldFreeRec(s: State, w: nat)
    requires Shape(s) && Places(s) && Told(s) && Enabled(s, FreeRec(w))
    ensures Told(Effect(s, FreeRec(w)))
  {
    var t := AfterFreeRec(s, w);
    KeepToldStep(s, t, t.log[|s.log|], t.fate[s.workers[w].pc.cmd]);
  }

  lemma KeepToldPush(s: State, p: nat, q: Queue, c: Cmd)
    requires Shape(s) && Told(s) && Enabled(s, Push(p, q, c))
    ensures Told(Effect(s, Push(p, q, c)))
  {
    var k := Slot(s.producers[p].dev, q);
    KeepToldStep(s, AfterPush(s, p, q, c), Queued(k, c), InQueue(k));
  }

  lemma KeepToldFrame(s: State, t: State)
    requires Told(s) && t.log == s.log && t.fate == s.fate
    ensures Told(t)
  {
  }

  lemma KeepToldInExecute(s: State, l: Label)
    requires Shape(s) && Places(s) && Told(s) && Enabled(s, l) && InExecute(l)
    ensures Told(Effect(s, l))
  {
    if l.Take? {
      KeepToldTake(s, l.w);
    } else if l.Call? {
      KeepToldCall(s, l.w, l.callback);
    } else {
      KeepToldFreeRec(s, l.w);
    }
  }

  lemma KeepToldInside(s: State, l: Label)
    requires Shape(s) && Places(s) && Told(s) && Enabled(s, l) && InQueueCmd(l)
    ensures Told(Effect(s, l))
  {
    if l.Push? {
      KeepToldPush(s, l.p, l.queue, l.cmd);
    } else {
      KeepToldFrame(s, Effect(s, l));
    }
  }

  lemma KeepTold(s: State, l: Label)
    requires Shape(s) && Places(s) && Told(s) && Enabled(s, l)
    ensures Told(Effect(s, l))
  {
    if InQueueCmd(l) {
      KeepToldInside(s, l);
    } else if InExecute(l) {
      KeepToldInExecute(s, l);
    } else {
      NoWorkMoves(s, l);
      KeepToldFrame(s, Effect(s, l));
    }
  }
}
