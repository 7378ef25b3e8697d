/** The invariant of the request rows over whole runs, and what it says about them. */
module RequestRuns {
  import opened Basics
  import opened Scheduler
  import opened SchedulerInvariant
  import opened SchedulerRecords
  import opened SchedulerRuns
  import opened SchedulerFates
  import opened RequestRows

  ghost predicate InitTable(t: Table) {
    && Init(t.sched) && |t.sched.producers| > 0
    && t.rows == map[] && t.mon == Asleep && t.sent == map[] && t.probed == {}
  }

  ghost predicate IsTableRun(tables: seq<Table>, moves: seq<Move>) {
    && |tables| == |moves| + 1
    && InitTable(tables[0])
    && forall i | 0 <= i < |moves| ::
         Shape(tables[i].sched) && CanMove(tables[i], moves[i]) && tables[i + 1] == Moved(tables[i], moves[i])
  }

  lemma {:induction false} TableRunInv(tables: seq<Table>, moves: seq<Move>, i: nat)
    requires IsTableRun(tables, moves) && i < |tables|
    ensures TableInv(tables[i])
  {
    if i == 0 {
      InitInv(tables[0].sched);
      assert forall id: nat :: RowOk(tables[0], id);
    } else {
      TableRunInv(tables, moves, i - 1);
      KeepTable(tables[i - 1], moves[i - 1]);
    }
  }

  ghost predicate Advances(row: Row, row': Row) {
    && row'.processing >= row.processing
    && (row.done <==> row.result.Some?) && (row.done ==> row'.done && row'.result == row.result)
  }

  lemma StepAdvances(t: Table, l: Label, code: nat, id: nat)
    requires TableInv(t) && CanMove(t, Step(l, code)) && id in t.rows
    ensures var rows := AfterStep(t.sched, t.rows, l, code); id in rows && Advances(t.rows[id], rows[id])
  {
    assert RowOk(t, id);
    if l.Call? {
      TurnsFrom(t.sched, l);
    }
  }

  lemma MoveAdvances(t: Table, m: Move, id: nat)
    requires TableInv(t) && CanMove(t, m) && id in t.rows
    ensures id in Moved(t, m).rows && Advances(t.rows[id], Moved(t, m).rows[id])
  {
    assert RowOk(t, id);
    if m.Step? {
      StepAdvances(t, m.step, m.code, id);
    } else if m.NoDevice? || m.BadArgs? {
      assert Todo(t.mon)[0] in Todo(t.mon) && RowOk(t, Todo(t.mon)[0]);
    }
  }

  /** Every step of every run: is_processing never goes down, is_done never goes back, and a result,
      once written, is never written again. */
  lemma RowsOnlyAdvance(tables: seq<Table>, moves: seq<Move>, i: nat, id: nat)
    requires IsTableRun(tables, moves) && i < |moves| && id in tables[i].rows
    ensures id in tables[i + 1].rows && Advances(tables[i].rows[id], tables[i + 1].rows[id])
  {
    TableRunInv(tables, moves, i);
    MoveAdvances(tables[i], moves[i], id);
  }

  /** A row's command is queued at most once in a run. */
  lemma QueuedAtMostOnce(tables: seq<Table>, moves: seq<Move>, i: nat, j: nat)
    requires IsTableRun(tables, moves) && i < j < |moves| && moves[i].Send? && moves[j].Send?
    ensures moves[i].cmd.owner != moves[j].cmd.owner
  {
    SentStays(tables, moves, i + 1, j, tables[i].mon.id);
    TableRunInv(tables, moves, j);
    assert tables[j].mon.id in Todo(tables[j].mon);
    assert RowOk(tables[j], tables[j].mon.id);
  }

  lemma {:induction false} SentStays(tables: seq<Table>, moves: seq<Move>, i: nat, j: nat, id: nat)
    requires IsTableRun(tables, moves) && i <= j < |tables| && id in tables[i].sent
    ensures id in tables[j].sent
  {
    if i == j {
    } else {
      SentStays(tables, moves, i, j - 1, id);
      assert tables[j] == Moved(tables[j - 1], moves[j - 1]);
    }
  }

  lemma IdleRow(t: Table, id: nat)
    requires TableInv(t) && id in t.probed && t.mon == Asleep
    requires forall k :: LaneOf(t.sched.slots, k).cmds == []
    requires forall w | 0 <= w < |t.sched.workers| :: !t.sched.workers[w].pc.Serving?
    ensures id in t.rows && t.rows[id].done && t.rows[id].processing >= 1
  {
    assert RowOk(t, id);
    if id in t.sent {
      var c := t.sent[id];
      var fate := t.sched.fate[c];
      assert fate.InQueue? ==> QueuedAt(t.sched, fate.slot);
    }
  }

  /** When the monitor sleeps and no command is queued or in a worker's hands, every row that was ever
      fetched is finished and was marked, whichever of the two updates came first. */
  lemma IdleMeansAllDone(tables: seq<Table>, moves: seq<Move>, i: nat, id: nat)
    requires IsTableRun(tables, moves) && i < |tables| && id in tables[i].probed
    requires tables[i].mon == Asleep
    requires forall k :: LaneOf(tables[i].sched.slots, k).cmds == []
    requires forall w | 0 <= w < |tables[i].sched.workers| :: !tables[i].sched.workers[w].pc.Serving?
    ensures id in tables[i].rows && tables[i].rows[id].done && tables[i].rows[id].processing >= 1
  {
    TableRunInv(tables, moves, i);
    IdleRow(tables[i], id);
  }
}
