/** What happens to the commands: each queue of each device behaves like a sequential first-in first-out server,
    and each accepted record gets exactly one terminal callback. The server is defined by replaying the log, and
    each step of the scheduler is one of its steps or none. */
module SchedulerCommands {
  import opened Basics
  import opened Scheduler
  import opened SchedulerInvariant

  // ---------------------------------------------------------------- the reference server

  datatype Server = Server(queue: seq<Cmd>, active: Option<(Cmd, Progress)>) | Broken

  /** One server, one command at a time: whatever does not fit breaks it for good. */
  function Serve(v: Server, e: Event): Server {
    if v.Broken? then Broken else
    match e
    case Queued(_, c) => v.(queue := v.queue + [c])
    case Dequeued(_, c) =>
      if v.active == None && v.queue != [] && v.queue[0] == c
      then Server(v.queue[1..], Some((c, Taken))) else Broken
    case Called(_, c, cb) =>
      if v.active.Some? && v.active.value.0 == c && Answers(v.active.value.1, cb)
      then v.(active := Some((c, if cb.OnExecuting? then Executing else Finished(cb)))) else Broken
    case Freed(_, c) =>
      if v.active.Some? && v.active.value.0 == c && v.active.value.1.Finished?
      then v.(active := None) else Broken
  }

  function Replay(log: seq<Event>, k: Slot): Server {
    if log == [] then Server([], None)
    else
      var v := Replay(log[..|log| - 1], k);
      var e := log[|log| - 1];
      if e.slot == k then Serve(v, e) else v
  }

  lemma ReplayStep(log: seq<Event>, e: Event, k: Slot)
    ensures Replay(log + [e], k) == if e.slot == k then Serve(Replay(log, k), e) else Replay(log, k)
  {
    assert (log + [e])[..|log|] == log;
  }

  /** Commands of the events of one kind on one slot, in order. */
  function Pick(log: seq<Event>, k: Slot, kind: Event -> bool): seq<Cmd> {
    if log == [] then []
    else
      var e := log[|log| - 1];
      Pick(log[..|log| - 1], k, kind) + (if e.slot == k && kind(e) then [e.cmd] else [])
  }

  function Accepted(log: seq<Event>, k: Slot): seq<Cmd> { Pick(log, k, (e: Event) => e.Queued?) }
  function Started(log: seq<Event>, k: Slot): seq<Cmd> { Pick(log, k, (e: Event) => e.Dequeued?) }
  function Ended(log: seq<Event>, k: Slot): seq<Cmd> {
    Pick(log, k, (e: Event) => e.Called? && !e.callback.OnExecuting?)
  }
  function Deleted(log: seq<Event>, k: Slot): seq<Cmd> { Pick(log, k, (e: Event) => e.Freed?) }

  /** An unbroken server starts what it accepted in order, ends each command before it starts the
      next one, and ends each exactly once before its record is deleted. */
  lemma {:induction false} ServerIsFifo(log: seq<Event>, k: Slot)
    requires Replay(log, k).Server?
    ensures var v := Replay(log, k);
      && Accepted(log, k) == Started(log, k) + v.queue
      && Started(log, k) == Ended(log, k)
           + (if v.active.Some? && !v.active.value.1.Finished? then [v.active.value.0] else [])
      && Ended(log, k) == Deleted(log, k)
           + (if v.active.Some? && v.active.value.1.Finished? then [v.active.value.0] else [])
  {
    if log == [] {
    } else {
      ServerIsFifo(log[..|log| - 1], k);
    }
  }

  // ---------------------------------------------------------------- the scheduler refines it

  ghost predicate RefinesAt(s: State, k: Slot) {
    var v := Replay(s.log, k);
    var sv := Servers(s.workers, k);
    && v.Server? && v.queue == LaneOf(s.slots, k).cmds
    && (sv == {} ==> v.active == None)
    && (forall w | w in sv ::
          v.active == match s.workers[w].pc case Serving(_, c, progress) => Some((c, progress)) case _ => None)
  }

  ghost predicate Refines(s: State) { forall k :: RefinesAt(s, k) }

  lemma KeepRefinesPush(s: State, p: nat, q: Queue, c: Cmd)
    requires Shape(s) && Refines(s) && Enabled(s, Push(p, q, c))
    ensures Refines(AfterPush(s, p, q, c))
  {
    var t := AfterPush(s, p, q, c);
    var k0 := Slot(s.producers[p].dev, q);
    LaneFrame(s.slots, t.slots, k0);
    forall k ensures RefinesAt(t, k) {
      assert RefinesAt(s, k);
      ReplayStep(s.log, Queued(k0, c), k);
    }
  }

  /** The server starts its next command. */
  lemma KeepRefinesStart(s: State, w: nat, k: Slot)
    requires Shape(s) && Tokens(s) && Refines(s) && Enabled(s, Take(w))
    requires LaneOf(s.slots, WorkerSlot(s.workers[w])).cmds != []
    ensures RefinesAt(AfterTake(s, w), k)
  {
    var t := AfterTake(s, w);
    var k0 := WorkerSlot(s.workers[w]);
    assert SlotOk(s, k0) && w in Servers(s.workers, k0);
    assert RefinesAt(s, k0) && RefinesAt(s, k);
    LaneFrame(s.slots, t.slots, k0);
    ServersUpdate(s.workers, w, t.workers[w]);
    ReplayStep(s.log, Dequeued(k0, LaneOf(s.slots, k0).cmds[0]), k);
  }

  lemma KeepRefinesStop(s: State, w: nat, k: Slot)
    requires Shape(s) && Tokens(s) && Refines(s) && Enabled(s, Take(w))
    requires LaneOf(s.slots, WorkerSlot(s.workers[w])).cmds == []
    ensures RefinesAt(AfterTake(s, w), k)
  {
    var t := AfterTake(s, w);
    var k0 := WorkerSlot(s.workers[w]);
    assert SlotOk(s, k0) && w in Servers(s.workers, k0);
    assert RefinesAt(s, k);
    LaneFrame(s.slots, t.slots, k0);
    ServersUpdate(s.workers, w, t.workers[w]);
  }

  lemma KeepRefinesTake(s: State, w: nat)
    requires Shape(s) && Tokens(s) && Refines(s) && Enabled(s, Take(w))
    ensures Refines(AfterTake(s, w))
  {
    forall k ensures RefinesAt(AfterTake(s, w), k) {
      if LaneOf(s.slots, WorkerSlot(s.workers[w])).cmds == [] {
        KeepRefinesStop(s, w, k);
      } else {
        KeepRefinesStart(s, w, k);
      }
    }
  }

  /** A worker that serves slot `k0` logged one event about the command in its hands. */
  lemma KeepRefinesService(s: State, w: nat, t: State, e: Event)
    requires Shape(s) && Tokens(s) && Refines(s) && WorkerAt(s, w) && s.workers[w].pc.Serving?
    requires t.slots == s.slots && |t.workers| == |s.workers| && t.log == s.log + [e]
    requires t.workers == s.workers[w := t.workers[w]] && t.workers[w].queue == s.workers[w].queue
    requires e.slot == WorkerSlot(s.workers[w]) && Serves(t.workers[w], e.slot)
    requires Serve(Server([], Some((s.workers[w].pc.cmd, s.workers[w].pc.progress))), e)
          == Server([], match t.workers[w].pc case Serving(_, c, progress) => Some((c, progress)) case _ => None)
    ensures Refines(t)
  {
    assert SlotOk(s, e.slot) && w in Servers(s.workers, e.slot);
    ServersUpdate(s.workers, w, t.workers[w]);
    forall k ensures RefinesAt(t, k) {
      assert RefinesAt(s, k);
      ReplayStep(s.log, e, k);
    }
  }

  /** Nothing was logged, no lane changed, and the workers serve the same slots at the same stage. */
  lemma KeepRefinesFrame(s: State, t: State)
    requires Refines(s) && t.slots == s.slots && t.log == s.log
    requires t.workers == s.workers
    ensures Refines(t)
  {
    forall k ensures RefinesAt(t, k) { assert RefinesAt(s, k); }
  }

  lemma KeepRefinesIdle(s: State, w: nat, t: State)
    requires Shape(s) && Refines(s) && WorkerAt(s, w) && t.slots == s.slots && t.log == s.log
    requires |t.workers| == |s.workers| && t.workers == s.workers[w := t.workers[w]]
    requires forall k :: !Serves(s.workers[w], k) && !Serves(t.workers[w], k)
    ensures Refines(t)
  {
    ServersUpdate(s.workers, w, t.workers[w]);
    forall k ensures RefinesAt(t, k) { assert RefinesAt(s, k); }
  }

  /** The popped device's queue had no server. */
  lemma KeepRefinesPop(s: State, w: nat, k: Slot)
    requires Shape(s) && Tokens(s) && Refines(s) && Enabled(s, Fetch(w)) && s.exec[s.workers[w].queue] != []
    ensures RefinesAt(AfterFetch(s, w), k)
  {
    var t := AfterFetch(s, w);
    ServersUpdate(s.workers, w, t.workers[w]);
    assert RefinesAt(s, k) && SlotOk(s, k);
  }

  lemma KeepRefinesFetch(s: State, w: nat)
    requires Shape(s) && Tokens(s) && Refines(s) && Enabled(s, Fetch(w))
    ensures Refines(AfterFetch(s, w))
  {
    if s.exec[s.workers[w].queue] == [] {
      KeepRefinesIdle(s, w, AfterFetch(s, w));
    } else {
      forall k ensures RefinesAt(AfterFetch(s, w), k) {
        KeepRefinesPop(s, w, k);
      }
    }
  }

  lemma KeepRefinesUnlock(s: State, p: nat)
    requires Shape(s) && Refines(s) && Enabled(s, Unlock(p))
    ensures Refines(AfterUnlock(s, p))
  {
    var t := AfterUnlock(s, p);
    LaneFrame(s.slots, t.slots, ProducerSlot(s.producers[p]));
    forall k ensures RefinesAt(t, k) { assert RefinesAt(s, k); }
  }

  lemma KeepRefinesInExecute(s: State, l: Label)
    requires Shape(s) && Tokens(s) && Refines(s) && Enabled(s, l) && InExecute(l)
    ensures Refines(Effect(s, l))
  {
    if l.Take? {
      KeepRefinesTake(s, l.w);
    } else {
      KeepRefinesService(s, l.w, Effect(s, l), Effect(s, l).log[|s.log|]);
    }
  }

  lemma KeepRefinesInLoop(s: State, l: Label)
    requires Shape(s) && Tokens(s) && Refines(s) && Enabled(s, l) && ByWorker(l) && !InExecute(l)
    ensures Refines(Effect(s, l))
  {
    if l.Fetch? {
      KeepRefinesFetch(s, l.w);
    } else {
      KeepRefinesIdle(s, l.w, Effect(s, l));
    }
  }

  lemma KeepRefinesInside(s: State, l: Label)
    requires Shape(s) && Refines(s) && Enabled(s, l) && InQueueCmd(l)
    ensures Refines(Effect(s, l))
  {
    if l.Push? {
      KeepRefinesPush(s, l.p, l.queue, l.cmd);
    } else if l.Unlock? {
      KeepRefinesUnlock(s, l.p);
    } else {
      KeepRefinesFrame(s, Effect(s, l));
    }
  }

  lemma KeepRefines(s: State, l: Label)
    requires Shape(s) && Tokens(s) && Refines(s) && Enabled(s, l)
    ensures Refines(Effect(s, l))
  {
    if InQueueCmd(l) {
      KeepRefinesInside(s, l);
    } else if InExecute(l) {
      KeepRefinesInExecute(s, l);
    } else if ByWorker(l) {
      KeepRefinesInLoop(s, l);
    } else {
      NoWorkMoves(s, l);
      KeepRefinesFrame(s, Effect(s, l));
    }
  }
}
