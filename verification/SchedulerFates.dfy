/** What one step of the scheduler does to the fates of the command records: it moves on at most one, from
    where the invariant says it is to the next place, and leaves all others alone. The step invariant of the
    request rows needs no more of the scheduler than that. */
module SchedulerFates {
  import opened Basics
  import opened Scheduler
  import opened SchedulerInvariant
  import opened SchedulerRecords
  import opened SchedulerRefs
  import opened SchedulerRuns

  /** The record a step moves on, and where to. */
  function Turns(s: State, l: Label): Option<(Cmd, Fate)>
    requires Shape(s) && Enabled(s, l)
  {
    match l
    case Push(p, q, c) => Some((c, InQueue(Slot(s.producers[p].dev, q))))
    case Take(w) =>
      var k := WorkerSlot(s.workers[w]);
      var cmds := LaneOf(s.slots, k).cmds;
      if cmds == [] then None else Some((cmds[0], InService(k, w, Taken)))
    case Call(w, cb) =>
      Some((s.workers[w].pc.cmd,
            InService(WorkerSlot(s.workers[w]), w, if cb.OnExecuting? then Executing else Finished(cb))))
    case FreeRec(w) => Some((s.workers[w].pc.cmd, Over(WorkerSlot(s.workers[w]), s.workers[w].pc.progress.last)))
    case _ => None
  }

  lemma FateStays(s: State, l: Label)
    requires Shape(s) && Enabled(s, l) && Turns(s, l).None?
    ensures Effect(s, l).fate == s.fate
  {
    if InQueueCmd(l) {
      InsideKeepsFate(s, l);
    } else if InExecute(l) {
      ExecuteKeepsFate(s, l);
    } else {
      NoWorkMoves(s, l);
    }
  }

  lemma InsideKeepsFate(s: State, l: Label)
    requires Shape(s) && Enabled(s, l) && InQueueCmd(l) && !l.Push?
    ensures Effect(s, l).fate == s.fate
  {
  }

  lemma ExecuteKeepsFate(s: State, l: Label)
    requires Shape(s) && Enabled(s, l) && InExecute(l) && Turns(s, l).None?
    ensures Effect(s, l).fate == s.fate
  {
  }

  lemma PushTurns(s: State, p: nat, q: Queue, c: Cmd)
    requires Shape(s) && Enabled(s, Push(p, q, c))
    ensures AfterPush(s, p, q, c).fate == s.fate[c := InQueue(Slot(s.producers[p].dev, q))]
  {
  }

  lemma ExecuteTurns(s: State, l: Label)
    requires Shape(s) && Enabled(s, l) && InExecute(l) && Turns(s, l).Some?
    ensures Effect(s, l).fate == s.fate[Turns(s, l).value.0 := Turns(s, l).value.1]
  {
  }

  lemma FateTurns(s: State, l: Label)
    requires Shape(s) && Enabled(s, l) && Turns(s, l).Some?
    ensures Effect(s, l).fate == s.fate[Turns(s, l).value.0 := Turns(s, l).value.1]
  {
    if l.Push? {
      PushTurns(s, l.p, l.queue, l.cmd);
    } else {
      ExecuteTurns(s, l);
    }
  }

  lemma StepFate(s: State, l: Label)
    requires Inv(s) && Enabled(s, l)
    ensures Inv(Next(s, l))
    ensures Next(s, l).fate == match Turns(s, l) case None => s.fate case Some(m) => s.fate[m.0 := m.1]
    ensures Next(s, l).producers == Effect(s, l).producers
  {
    StepInv(s, l);
    if Turns(s, l).None? {
      FateStays(s, l);
    } else {
      FateTurns(s, l);
    }
    FlushCancelsNothing(s, l);
  }

  /** Where the record a step moves on comes from. */
  lemma TurnsFrom(s: State, l: Label)
    requires Inv(s) && Enabled(s, l) && Turns(s, l).Some? && !l.Push?
    ensures var c := Turns(s, l).value.0;
      && c in s.fate
      && match l
         case Take(w) => s.fate[c].InQueue?
         case Call(w, cb) =>
           s.fate[c].InService? && c == s.workers[w].pc.cmd && Answers(s.fate[c].progress, cb)
         case FreeRec(w) => s.fate[c].InService? && s.fate[c].progress == Finished(s.workers[w].pc.progress.last)
         case _ => true
  {
    if l.Take? {
      var k := WorkerSlot(s.workers[l.w]);
      assert QueuedAt(s, k) && LaneOf(s.slots, k).cmds[0] in LaneOf(s.slots, k).cmds;
    }
  }
}
