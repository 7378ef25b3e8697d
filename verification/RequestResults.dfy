/** Which result a row gets, and which rows are fetched. */
module RequestResults {
  import opened Basics
  import opened Scheduler
  import opened SchedulerInvariant
  import opened SchedulerRecords
  import opened SchedulerRuns
  import opened SchedulerFates
  import opened SchedulerProgress
  import opened RequestRows
  import opened RequestRuns
  import opened RequestProgress

  /** The move is the callback of a worker for the command of row `id`. */
  ghost predicate CallsFor(t: Table, m: Move, id: nat)
    requires Shape(t.sched) && CanMove(t, m)
  {
    m.Step? && m.step.Call? && t.sched.workers[m.step.w].pc.cmd.owner == RowCmd(id)
  }

  /** The move reports result `v` for row `id`: a worker that the command was executed, failed or was cancelled,
      or the monitor that there is no device for the row or its arguments are bad. */
  ghost predicate Reports(t: Table, m: Move, id: nat, v: nat)
    requires Shape(t.sched) && CanMove(t, m)
  {
    match m
    case NoDevice(code) => t.mon.todo[0] == id && v == code
    case BadArgs(code) => t.mon.id == id && v == code
    case Step(Call(w, OnExecuted), code) => CallsFor(t, m, id) && v == code
    case Step(Call(w, OnFailed), code) => CallsFor(t, m, id) && v == code
    case Step(Call(w, OnCancelled), _) => CallsFor(t, m, id) && v == 1223
    case _ => false
  }

  /** The rows after the move have what it reports, and otherwise what they had. */
  ghost predicate Written(t: Table, m: Move, id: nat, rows: map<nat, Row>)
    requires Shape(t.sched) && CanMove(t, m) && id in t.rows
  {
    && id in rows
    && (forall v: nat | Reports(t, m, id, v) :: t.rows[id].result == None && rows[id].result == Some(v))
    && ((forall v: nat :: !Reports(t, m, id, v)) ==> rows[id].result == t.rows[id].result)
  }

  lemma CallIsWritten(t: Table, l: Label, code: nat, id: nat)
    requires TableInv(t) && CanMove(t, Step(l, code)) && id in t.rows
    ensures Written(t, Step(l, code), id, AfterStep(t.sched, t.rows, l, code))
  {
    assert RowOk(t, id);
    if l.Call? {
      TurnsFrom(t.sched, l);
      assert !l.callback.OnExecuting? && CallsFor(t, Step(l, code), id) ==>
        Reports(t, Step(l, code), id, if l.callback.OnCancelled? then 1223 else code);
    }
  }

  lemma MonitorIsWritten(t: Table, m: Move, id: nat)
    requires TableInv(t) && CanMove(t, m) && !m.Step? && id in t.rows
    ensures Written(t, m, id, Moved(t, m).rows)
  {
    if m.NoDevice? || m.BadArgs? {
      assert RowOk(t, id);
      assert Todo(t.mon)[0] in Todo(t.mon);
      assert Todo(t.mon)[0] == id ==> Reports(t, m, id, m.code);
    }
  }

  /** In every step of every run: what is reported for a row had not been reported before and is written to it,
      and nothing else changes its result. */
  lemma ReportIsWritten(tables: seq<Table>, moves: seq<Move>, i: nat, id: nat)
    requires IsTableRun(tables, moves) && i < |moves| && id in tables[i].rows
    ensures id in tables[i + 1].rows
    ensures forall v: nat | Reports(tables[i], moves[i], id, v) ::
      tables[i].rows[id].result == None && tables[i + 1].rows[id].result == Some(v)
    ensures (forall v: nat :: !Reports(tables[i], moves[i], id, v)) ==>
      tables[i + 1].rows[id].result == tables[i].rows[id].result
  {
    TableRunInv(tables, moves, i);
    if moves[i].Step? {
      CallIsWritten(tables[i], moves[i].step, moves[i].code, id);
    } else {
      MonitorIsWritten(tables[i], moves[i], id);
    }
  }

  lemma {:induction false} ResultStays(tables: seq<Table>, moves: seq<Move>, i: nat, j: nat, id: nat)
    requires IsTableRun(tables, moves) && i <= j < |tables| && id in tables[i].rows
    ensures id in tables[j].rows
    ensures tables[i].rows[id].result.Some? ==> tables[j].rows[id].result == tables[i].rows[id].result
    ensures tables[i].rows[id].processing <= tables[j].rows[id].processing
    ensures tables[i].rows[id].done ==> tables[j].rows[id].done
  {
    if i == j {
    } else {
      ResultStays(tables, moves, i, j - 1, id);
      RowsOnlyAdvance(tables, moves, j - 1, id);
    }
  }

  ghost predicate ReportedAt(tables: seq<Table>, moves: seq<Move>, k: nat, id: nat, v: nat)
    requires IsTableRun(tables, moves)
  {
    k < |moves| && Reports(tables[k], moves[k], id, v)
  }

  lemma ReportedIsInTable(t: Table, m: Move, id: nat, v: nat)
    requires TableInv(t) && CanMove(t, m) && Reports(t, m, id, v)
    ensures id in t.rows
  {
    assert RowOk(t, id);
    if m.Step? {
      TurnsFrom(t.sched, m.step);
    } else {
      assert Todo(t.mon)[0] in Todo(t.mon);
    }
  }

  /** In every state of every run, a row has a result if and only if that result was reported for it. */
  lemma {:induction false} ResultIff(tables: seq<Table>, moves: seq<Move>, j: nat, id: nat, v: nat)
    requires IsTableRun(tables, moves) && j < |tables|
    ensures id in tables[j].rows && tables[j].rows[id].result == Some(v)
       <==> exists k: nat :: k < j && ReportedAt(tables, moves, k, id, v)
  {
    if k: nat :| k < j && ReportedAt(tables, moves, k, id, v) {
      TableRunInv(tables, moves, k);
      ReportedIsInTable(tables[k], moves[k], id, v);
      ReportIsWritten(tables, moves, k, id);
      ResultStays(tables, moves, k + 1, j, id);
    }
    if id in tables[j].rows && tables[j].rows[id].result == Some(v) {
      var _ := FirstReport(tables, moves, j, id, v);
    }
  }

  lemma {:induction false} FirstReport(tables: seq<Table>, moves: seq<Move>, j: nat, id: nat, v: nat) returns (k: nat)
    requires IsTableRun(tables, moves) && j < |tables|
    requires id in tables[j].rows && tables[j].rows[id].result == Some(v)
    ensures k < j && ReportedAt(tables, moves, k, id, v)
  {
    var t := tables[j - 1];
    NewRowsAreEmpty(tables, moves, j - 1, id);
    if t.rows[id].result == Some(v) {
      k := FirstReport(tables, moves, j - 1, id, v);
    } else {
      ReportIsWritten(tables, moves, j - 1, id);
      k := j - 1;
      var w: nat :| Reports(t, moves[k], id, w);
      assert w == v;
    }
  }

  lemma NewRowsAreEmpty(tables: seq<Table>, moves: seq<Move>, i: nat, id: nat)
    requires IsTableRun(tables, moves) && i < |moves| && id in tables[i + 1].rows
    ensures id in tables[i].rows || tables[i + 1].rows[id].result == None
  {
    assert tables[i + 1] == Moved(tables[i], moves[i]);
  }

  // ---------------------------------------------------------------- who is fetched

  /** A probe fetches exactly the rows that are neither done nor in process. */
  lemma ProbeFetches(tables: seq<Table>, moves: seq<Move>, i: nat, id: nat)
    requires IsTableRun(tables, moves) && i < |moves| && moves[i].Probe?
    ensures id in moves[i].ids
       <==> id in tables[i].rows && !tables[i].rows[id].done && tables[i].rows[id].processing == 0
    ensures id in moves[i].ids ==> id in tables[i + 1].probed
  {
    assert id in NewRows(tables[i].rows) <==> id in (set x | x in moves[i].ids);
  }

  /** A row that was touched is done where monitor and scheduler have come to a stop. */
  lemma TouchedRowIsDone(t: Table, id: nat)
    requires TableInv(t) && NobodyLeft(t.sched) && Staffed(t.sched) && !t.sched.quit && TableStopped(t)
    requires id in t.rows && (id in t.probed || t.rows[id].done || t.rows[id].processing > 0)
    ensures t.rows[id].done && t.rows[id].processing >= 1
  {
    if t.mon != Asleep || !AtRest(t.sched) {
      var m := TableCanGo(t);
      assert false;
    }
    if id in t.probed {
      IdleRow(t, id);
    } else {
      IdleTouchedRow(t, id);
    }
  }

  lemma IdleTouchedRow(t: Table, id: nat)
    requires TableInv(t) && id in t.rows && t.mon == Asleep && AtRest(t.sched)
    requires t.rows[id].done || t.rows[id].processing > 0
    ensures t.rows[id].done && t.rows[id].processing >= 1
  {
    assert RowOk(t, id);
    if id in t.sent {
      var fate := t.sched.fate[t.sent[id]];
      assert fate.InQueue? ==> QueuedAt(t.sched, fate.slot);
    }
  }

  lemma {:induction false} ProbedStays(tables: seq<Table>, moves: seq<Move>, i: nat, j: nat, id: nat)
    requires IsTableRun(tables, moves) && i <= j < |tables| && id in tables[i].probed
    ensures id in tables[j].probed
  {
    if i == j {
    } else {
      ProbedStays(tables, moves, i, j - 1, id);
      assert tables[j] == Moved(tables[j - 1], moves[j - 1]);
    }
  }

  /** So every row that was in the table at a probe is done wherever monitor and scheduler come to a stop. */
  lemma EveryRowPresentGetsDone(tables: seq<Table>, moves: seq<Move>, i: nat, j: nat, id: nat)
    requires IsTableRun(tables, moves) && i < j < |tables| && moves[i].Probe? && id in tables[i].rows
    requires Staffed(tables[j].sched) && !tables[j].sched.quit
    requires Shape(tables[j].sched) && TableStopped(tables[j])
    ensures id in tables[j].rows && tables[j].rows[id].done && tables[j].rows[id].processing >= 1
  {
    TableRunInv(tables, moves, j);
    TableNobodyLeft(tables, moves, j);
    ResultStays(tables, moves, i, j, id);
    ProbeFetches(tables, moves, i, id);
    if id in moves[i].ids {
      ProbedStays(tables, moves, i + 1, j, id);
    }
    TouchedRowIsDone(tables[j], id);
  }
}
