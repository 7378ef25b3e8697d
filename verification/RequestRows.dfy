/** The rows of table op_requests (jni/libdevmgr/db/CmdTableMod.cpp) on top of the scheduler. The
    monitor thread probes the table, queues the command of each new row and marks the row afterwards;
    the callbacks of the worker threads update the same row meanwhile. Each SQL statement is one
    atomic step. */
module RequestRows {
  import opened Basics
  import opened Scheduler
  import opened SchedulerInvariant
  import opened SchedulerRecords
  import opened SchedulerRuns
  import opened SchedulerFates

  const ERROR_CANCELLED := 1223

  /** Columns is_processing, is_done and result. */
  datatype Row = Row(processing: nat, done: bool, result: Option<nat>)

  const NEW_ROW := Row(0, false, None)

  /** The monitor thread, which is producer 0 of the scheduler: asleep, between two rows of the fetched
      result, with the device of a row in hand, after `QueueCmd` was entered, after the marking. */
  datatype Monitor =
    | Asleep
    | Between(todo: seq<nat>)
    | Got(id: nat, todo: seq<nat>)
    | Sent(id: nat, todo: seq<nat>)
    | Marked(id: nat, todo: seq<nat>)

  /** `sent` and `probed` are history: the record queued for a row, and the rows ever fetched. */
  datatype Table = Table(sched: State, rows: map<nat, Row>, mon: Monitor, sent: map<nat, Cmd>, probed: set<nat>)

  datatype Move =
    | InsertRow(id: nat)                      // another program adds a request
    | Probe(ids: seq<nat>)                    // the select of ProbeCmds
    | EndProbe
    | NoDevice(code: nat)                     // GetDevice failed: processing=1, done=1
    | Find(dev: nat)                          // GetDevice succeeded
    | BadArgs(code: nat)                      // ConvertArgs or QueueCmd failed
    | Send(queue: Queue, cmd: Cmd)            // QueueCmd entered
    | Mark                                    // processing=1 where processing=0
    | Done                                    // Release
    | Step(step: Label, code: nat)            // a step of any other thread, or inside QueueCmd

  function Rejected(code: nat): Row { Row(1, true, Some(code)) }

  /** What `OnExecuting`, `OnExecuted`, `OnFailed` and `OnCancelled` do to a row. */
  function OnCallback(row: Row, cb: Callback, code: nat): Row {
    match cb
    case OnExecuting => row.(processing := 2)
    case OnExecuted => row.(done := true, result := Some(code))
    case OnFailed => row.(done := true, result := Some(code))
    case OnCancelled => row.(done := true, result := Some(ERROR_CANCELLED))
  }

  function Update(rows: map<nat, Row>, id: nat, row: Row): map<nat, Row> {
    if id in rows then rows[id := row] else rows
  }

  /** The row effect of a scheduler step: only callbacks of row commands have one. */
  function AfterStep(s: State, rows: map<nat, Row>, l: Label, code: nat): map<nat, Row>
    requires Shape(s) && Enabled(s, l)
  {
    if l.Call? && s.workers[l.w].pc.cmd.owner.RowCmd? then
      var id := s.workers[l.w].pc.cmd.owner.id;
      if id in rows then Update(rows, id, OnCallback(rows[id], l.callback, code)) else rows
    else rows
  }

  /** Steps that are not the monitor's own, apart from the inside of its `QueueCmd`. */
  predicate NotMonitor(l: Label) {
    match l
    case Get(p, _) => p != 0
    case Borrow(p, _) => p != 0
    case Push(p, _, c) => p != 0 && c.owner == OtherCmd
    case Drop(p) => p != 0
    case _ => true
  }

  function NewRows(rows: map<nat, Row>): set<nat> {
    set id | id in rows && rows[id].processing == 0 && !rows[id].done
  }

  ghost predicate CanMove(t: Table, m: Move)
    requires Shape(t.sched)
  {
    match m
    case InsertRow(id) => id !in t.rows
    case Probe(ids) => t.mon == Asleep && NoDup(ids) && (set id | id in ids) == NewRows(t.rows)
    case EndProbe => t.mon == Between([])
    case NoDevice(_) => t.mon.Between? && t.mon.todo != []
    case Find(d) => t.mon.Between? && t.mon.todo != [] && Enabled(t.sched, Get(0, d))
    case BadArgs(_) => t.mon.Got?
    case Send(q, c) => t.mon.Got? && c.owner == RowCmd(t.mon.id) && Enabled(t.sched, Push(0, q, c))
    case Mark => t.mon.Sent? && ProducerAt(t.sched, 0, Ready)
    case Done => t.mon.Marked? && Enabled(t.sched, Drop(0))
    case Step(l, _) => NotMonitor(l) && Enabled(t.sched, l)
  }

  ghost function Moved(t: Table, m: Move): Table
    requires Shape(t.sched) && CanMove(t, m)
  {
    match m
    case InsertRow(id) => t.(rows := t.rows[id := NEW_ROW])
    case Probe(ids) => t.(mon := Between(ids), probed := t.probed + (set id | id in ids))
    case EndProbe => t.(mon := Asleep)
    case NoDevice(code) =>
      t.(mon := Between(t.mon.todo[1..]), rows := Update(t.rows, t.mon.todo[0], Rejected(code)))
    case Find(d) => t.(mon := Got(t.mon.todo[0], t.mon.todo[1..]), sched := Next(t.sched, Get(0, d)))
    case BadArgs(code) =>
      t.(mon := Marked(t.mon.id, t.mon.todo), rows := Update(t.rows, t.mon.id, Rejected(code)))
    case Send(q, c) =>
      t.(mon := Sent(t.mon.id, t.mon.todo), sched := Next(t.sched, Push(0, q, c)), sent := t.sent[t.mon.id := c])
    case Mark =>
      var id := t.mon.id;
      t.(mon := Marked(id, t.mon.todo),
         rows := if id in t.rows && t.rows[id].processing == 0 then t.rows[id := t.rows[id].(processing := 1)]
                 else t.rows)
    case Done => t.(mon := Between(t.mon.todo), sched := Next(t.sched, Drop(0)))
    case Step(l, code) => t.(sched := Next(t.sched, l), rows := AfterStep(t.sched, t.rows, l, code))
  }

  // ---------------------------------------------------------------- the invariant

  /** The monitor's place agrees with producer 0 of the scheduler. */
  ghost predicate MonitorOk(t: Table) {
    && |t.sched.producers| > 0
    && var pr := t.sched.producers[0];
       match t.mon
       case Asleep => pr == Idle
       case Between(_) => pr == Idle
       case Got(_, _) => ProducerAt(t.sched, 0, Ready)
       case Sent(_, _) => pr.At?
       case Marked(_, _) => ProducerAt(t.sched, 0, Ready)
  }

  /** Rows the monitor has fetched but not dealt with yet. */
  function Todo(mon: Monitor): seq<nat> {
    match mon
    case Asleep => []
    case Between(todo) => todo
    case Got(id, todo) => [id] + todo
    case Sent(_, todo) => todo
    case Marked(_, todo) => todo
  }

  /** What a row may look like while its record is at `fate`. */
  predicate Fits(row: Row, fate: Fate, unmarked: bool) {
    && (row.processing == 0 ==> unmarked)
    && match fate
       case InQueue(_) => !row.done && row.processing <= 1 && row.result == None
       case InService(_, _, Taken) => !row.done && row.processing <= 1 && row.result == None
       case InService(_, _, Executing) => !row.done && row.processing == 2 && row.result == None
       case InService(_, _, Finished(last)) =>
         row.done && row.result.Some? && (if last.OnCancelled? then row.processing <= 1 else row.processing == 2)
       case Over(_, last) =>
         row.done && row.result.Some? && (if last.OnCancelled? then row.processing <= 1 else row.processing == 2)
  }

  ghost predicate RowOk(t: Table, id: nat) {
    && (id in Todo(t.mon) ==> id in t.rows && t.rows[id] == NEW_ROW && id !in t.sent)
    && (id in t.sent ==>
          && id in t.rows && t.sent[id] in t.sched.fate && t.sent[id].owner == RowCmd(id)
          && Fits(t.rows[id], t.sched.fate[t.sent[id]], t.mon.Sent? && t.mon.id == id))
    && (id in t.rows && id !in t.sent ==>
          t.rows[id] == NEW_ROW || (t.rows[id].processing == 1 && t.rows[id].done && t.rows[id].result.Some?))
    && (id in t.probed ==> id in Todo(t.mon) || id in t.sent || (id in t.rows && t.rows[id] != NEW_ROW))
  }

  ghost predicate TableInv(t: Table) {
    && Inv(t.sched) && MonitorOk(t) && NoDup(Todo(t.mon))
    && (t.mon.Sent? ==> t.mon.id in t.sent)
    && (forall id: nat :: RowOk(t, id))
    && (forall c | c in t.sched.fate && c.owner.RowCmd? :: c.owner.id in t.sent && t.sent[c.owner.id] == c)
  }

  // ---------------------------------------------------------------- preservation

  /** The row part of the invariant does not look at the scheduler beyond the fates. */
  ghost predicate RowsOk(t: Table) {
    && (forall id: nat :: RowOk(t, id))
    && (forall c | c in t.sched.fate && c.owner.RowCmd? :: c.owner.id in t.sent && t.sent[c.owner.id] == c)
  }

  /** Another observer's command moved on. */
  lemma KeepRowsOther(t: Table, u: Table, c: Cmd, fate: Fate)
    requires RowsOk(t) && c.owner == OtherCmd && u.sched.fate == t.sched.fate[c := fate]
    requires u.rows == t.rows && u.mon == t.mon && u.sent == t.sent && u.probed == t.probed
    ensures RowsOk(u)
  {
    forall id: nat ensures RowOk(u, id) { assert RowOk(t, id); }
  }

  /** A row's command moved on, and its row with it. */
  lemma KeepRowsTurn(t: Table, u: Table, c: Cmd, fate: Fate, row: Row)
    requires RowsOk(t) && c in t.sched.fate && c.owner.RowCmd? && u.sched.fate == t.sched.fate[c := fate]
    requires u.rows == t.rows[c.owner.id := row] && u.mon == t.mon && u.sent == t.sent && u.probed == t.probed
    requires RowOk(t, c.owner.id) ==> Fits(row, fate, t.mon.Sent? && t.mon.id == c.owner.id)
    ensures RowsOk(u)
  {
    forall id: nat ensures RowOk(u, id) { assert RowOk(t, id); }
  }

  lemma KeepRowsFrame(t: Table, u: Table)
    requires RowsOk(t) && u.sched.fate == t.sched.fate
    requires u.rows == t.rows && u.mon == t.mon && u.sent == t.sent && u.probed == t.probed
    ensures RowsOk(u)
  {
    forall id: nat ensures RowOk(u, id) { assert RowOk(t, id); }
  }

  /** The row of the record a step moved on fits where the record is now. */
  lemma TurnFits(t: Table, l: Label, code: nat)
    requires TableInv(t) && CanMove(t, Step(l, code)) && Turns(t.sched, l).Some? && !l.Push?
    requires Turns(t.sched, l).value.0.owner.RowCmd?
    ensures var (c, fate) := Turns(t.sched, l).value;
      var id := c.owner.id;
      && c in t.sched.fate && id in t.rows
      && var row := if l.Call? then OnCallback(t.rows[id], l.callback, code) else t.rows[id];
         AfterStep(t.sched, t.rows, l, code) == t.rows[id := row]
         && Fits(row, fate, t.mon.Sent? && t.mon.id == id)
  {
    TurnsFrom(t.sched, l);
    assert RowOk(t, Turns(t.sched, l).value.0.owner.id);
  }

  /** The record a step moved on, with its row. */
  lemma KeepTurnRows(t: Table, u: Table, l: Label, code: nat, c: Cmd, fate: Fate)
    requires TableInv(t) && CanMove(t, Step(l, code)) && Turns(t.sched, l) == Some((c, fate))
    requires u.sched.fate == t.sched.fate[c := fate] && u.rows == AfterStep(t.sched, t.rows, l, code)
    requires u.mon == t.mon && u.sent == t.sent && u.probed == t.probed
    ensures RowsOk(u)
  {
    if l.Push? || c.owner == OtherCmd {
      KeepRowsOther(t, u, c, fate);
    } else {
      TurnFits(t, l, code);
      KeepRowsTurn(t, u, c, fate, u.rows[c.owner.id]);
    }
  }

  lemma KeepStepRows(t: Table, l: Label, code: nat)
    requires TableInv(t) && CanMove(t, Step(l, code))
    ensures RowsOk(Moved(t, Step(l, code)))
  {
    StepFate(t.sched, l);
    if Turns(t.sched, l).None? {
      KeepRowsFrame(t, Moved(t, Step(l, code)));
    } else {
      var (c, fate) := Turns(t.sched, l).value;
      KeepTurnRows(t, Moved(t, Step(l, code)), l, code, c, fate);
    }
  }

  /** The first producer's place before and after a step that is not the monitor's. */
  ghost predicate SamePlace(pr: Producer, pr': Producer) {
    pr' == pr || (pr.At? && !pr.phase.Ready? && pr'.At?)
  }

  lemma InsideStaysInside(s: State, l: Label)
    requires Shape(s) && Enabled(s, l) && InQueueCmd(l) && !l.Push?
    ensures |Effect(s, l).producers| == |s.producers| && SamePlace(s.producers[l.p], Effect(s, l).producers[l.p])
  {
  }

  lemma StepKeepsPlace(s: State, l: Label)
    requires Shape(s) && |s.producers| > 0 && NotMonitor(l) && Enabled(s, l)
    ensures |Effect(s, l).producers| == |s.producers| && SamePlace(s.producers[0], Effect(s, l).producers[0])
  {
    if ByWorker(l) {
      WorkerFrame(s, l);
    } else if ByMonitor(l) {
      MonitorFrame(s, l);
    } else if ByProducer(l) {
      ProducerFrame(s, l);
      if l.p == 0 {
        InsideStaysInside(s, l);
      }
    } else {
      CleanupFrame(s, l);
    }
  }

  lemma StepLeavesMonitor(t: Table, l: Label)
    requires Shape(t.sched) && MonitorOk(t) && NotMonitor(l) && Enabled(t.sched, l)
    ensures MonitorOk(t.(sched := Effect(t.sched, l)))
  {
    StepKeepsPlace(t.sched, l);
  }

  lemma KeepStep(t: Table, l: Label, code: nat)
    requires TableInv(t) && CanMove(t, Step(l, code))
    ensures TableInv(Moved(t, Step(l, code)))
  {
    StepFate(t.sched, l);
    KeepStepRows(t, l, code);
    StepLeavesMonitor(t, l);
  }

  lemma TodoTail(mon: Monitor)
    requires NoDup(Todo(mon)) && (mon.Got? || (mon.Between? && mon.todo != []))
    ensures mon.Got? ==> Todo(mon)[1..] == mon.todo
    ensures NoDup(Todo(mon)[1..]) && Todo(mon)[0] in Todo(mon)
    ensures forall id :: id in Todo(mon)[1..] <==> id in Todo(mon) && id != Todo(mon)[0]
  {
    TailMembers(Todo(mon));
  }

  /** The row that was in hand has its command queued now. */
  lemma KeepSentRows(t: Table, u: Table, c: Cmd, k: Slot)
    requires RowsOk(t) && NoDup(Todo(t.mon)) && t.mon.Got? && u.mon == Sent(t.mon.id, t.mon.todo)
    requires c !in t.sched.fate && c.owner == RowCmd(t.mon.id) && u.sched.fate == t.sched.fate[c := InQueue(k)]
    requires u.rows == t.rows && u.sent == t.sent[t.mon.id := c] && u.probed == t.probed
    ensures RowsOk(u) && NoDup(Todo(u.mon))
  {
    TodoTail(t.mon);
    assert RowOk(t, t.mon.id);
    forall id: nat ensures RowOk(u, id) { assert RowOk(t, id); }
  }

  lemma PushMoves(s: State, q: Queue, c: Cmd)
    requires Inv(s) && Enabled(s, Push(0, q, c))
    ensures var t := Next(s, Push(0, q, c));
      Inv(t) && t.fate == s.fate[c := InQueue(Slot(s.producers[0].dev, q))]
      && |t.producers| == |s.producers| && t.producers[0].At?
  {
    StepFate(s, Push(0, q, c));
  }

  lemma KeepSend(t: Table, q: Queue, c: Cmd)
    requires TableInv(t) && CanMove(t, Send(q, c))
    ensures TableInv(Moved(t, Send(q, c)))
  {
    var u := Moved(t, Send(q, c));
    PushMoves(t.sched, q, c);
    assert MonitorOk(u);
    KeepSentRows(t, u, c, Slot(t.sched.producers[0].dev, q));
  }

  lemma KeepReject(t: Table, m: Move)
    requires TableInv(t) && CanMove(t, m) && (m.NoDevice? || m.BadArgs?)
    ensures TableInv(Moved(t, m))
  {
    var u := Moved(t, m);
    TodoTail(t.mon);
    assert RowOk(t, Todo(t.mon)[0]);
    forall id: nat ensures RowOk(u, id) { assert RowOk(t, id); }
  }

  /** The row that was queued is marked, unless a callback has marked it already. */
  lemma KeepMarkedRow(t: Table, u: Table, id: nat)
    requires RowOk(t, id) && t.mon.Sent? && u.mon == Marked(t.mon.id, t.mon.todo) && u.sched == t.sched
    requires u.sent == t.sent && u.probed == t.probed && t.mon.id in t.sent
    requires u.rows == if t.mon.id in t.rows && t.rows[t.mon.id].processing == 0
                       then t.rows[t.mon.id := t.rows[t.mon.id].(processing := 1)] else t.rows
    ensures RowOk(u, id)
  {
    assert Todo(u.mon) == Todo(t.mon);
    if id == t.mon.id {
    } else {
      assert id in t.rows <==> id in u.rows;
      assert id in t.rows ==> u.rows[id] == t.rows[id];
    }
  }

  lemma KeepMark(t: Table)
    requires TableInv(t) && CanMove(t, Mark)
    ensures TableInv(Moved(t, Mark))
  {
    var u := Moved(t, Mark);
    forall id: nat ensures RowOk(u, id) {
      assert RowOk(t, id);
      KeepMarkedRow(t, u, id);
    }
  }

  lemma KeepProbe(t: Table, m: Move)
    requires TableInv(t) && CanMove(t, m) && (m.Probe? || m.InsertRow? || m.EndProbe?)
    ensures TableInv(Moved(t, m))
  {
    var u := Moved(t, m);
    forall id: nat ensures RowOk(u, id) {
      assert RowOk(t, id);
      if m.Probe? && id in m.ids {
        assert id in NewRows(t.rows) by { assert id in (set id | id in m.ids); }
      }
    }
  }

  /** The monitor found a device for its row, or let it go. */
  lemma KeepHeldRows(t: Table, u: Table)
    requires RowsOk(t) && u.sched.fate == t.sched.fate && Todo(u.mon) == Todo(t.mon)
    requires !t.mon.Sent? && !u.mon.Sent? && u.rows == t.rows && u.sent == t.sent && u.probed == t.probed
    ensures RowsOk(u)
  {
    forall id: nat ensures RowOk(u, id) { assert RowOk(t, id); }
  }

  lemma KeepFind(t: Table, d: nat)
    requires TableInv(t) && CanMove(t, Find(d))
    ensures TableInv(Moved(t, Find(d)))
  {
    var u := Moved(t, Find(d));
    StepFate(t.sched, Get(0, d));
    assert Todo(u.mon) == Todo(t.mon);
    KeepHeldRows(t, u);
  }

  lemma KeepDone(t: Table)
    requires TableInv(t) && CanMove(t, Done)
    ensures TableInv(Moved(t, Done))
  {
    StepFate(t.sched, Drop(0));
    KeepHeldRows(t, Moved(t, Done));
  }

  lemma KeepTable(t: Table, m: Move)
    requires TableInv(t) && CanMove(t, m)
    ensures TableInv(Moved(t, m))
  {
    if m.Step? {
      KeepStep(t, m.step, m.code);
    } else if m.Send? {
      KeepSend(t, m.queue, m.cmd);
    } else if m.NoDevice? || m.BadArgs? {
      KeepReject(t, m);
    } else if m.Mark? {
      KeepMark(t);
    } else if m.Find? {
      KeepFind(t, m.dev);
    } else if m.Done? {
      KeepDone(t);
    } else {
      KeepProbe(t, m);
    }
  }
}
