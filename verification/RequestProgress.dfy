/** Every fetched row of the request table becomes done, whatever devices are plugged in. */
module RequestProgress {
  import opened Basics
  import opened Scheduler
  import opened SchedulerInvariant
  import opened SchedulerRuns
  import opened SchedulerFuel
  import opened SchedulerProgress
  import opened SchedulerFinish
  import opened RequestRows
  import opened RequestRuns
  import opened Sums

  // Runs without new rows and new work from other callers are bounded; the monitor of the table and the
  // scheduler's own threads can go on until nothing is left to do.

  /** Moves that bring no new work. */
  predicate QuietMove(m: Move) { !m.InsertRow? && !m.Probe? && (m.Step? ==> Quiet(m.step)) }

  /** The monitor goes on with what it has fetched, and the scheduler with its own steps. */
  predicate OwnMove(m: Move) { !m.InsertRow? && !m.Probe? && (m.Step? ==> OwnStep(m.step)) }

  /** Monitor and scheduler have come to a stop. */
  ghost predicate TableStopped(t: Table)
    requires Shape(t.sched)
  {
    forall m | CanMove(t, m) :: !OwnMove(m)
  }

  /** A fetched row may still get a device, queue a command and have it run. */
  function MonitorFuel(mon: Monitor): nat {
    match mon
    case Asleep => 0
    case Between(todo) => 1 + 20 * |todo|
    case Got(_, todo) => 18 + 20 * |todo|
    case Sent(_, todo) => 3 + 20 * |todo|
    case Marked(_, todo) => 2 + 20 * |todo|
  }

  function TableFuel(t: Table): nat { MonitorFuel(t.mon) + Fuel(t.sched) }

  lemma GetFuel(s: State, d: nat)
    requires Shape(s) && Enabled(s, Get(0, d))
    ensures Fuel(Next(s, Get(0, d))) == Fuel(s) + 1
  {
    var t := Effect(s, Get(0, d));
    TotalUpdate(s.producers, 0, t.producers[0], ProducerFuel);
    StageUpdate(s.devs, d, DevOf(t.devs, d));
  }

  lemma PendingGrows(slots: map<Slot, Lane>, k: Slot, lane: Lane)
    requires |lane.cmds| == |LaneOf(slots, k).cmds| + 1
    ensures |Pending(slots[k := lane])| == |Pending(slots)| + 1
  {
    var n := |LaneOf(slots, k).cmds|;
    assert (k, n) !in Pending(slots);
    assert Pending(slots[k := lane]) == Pending(slots) + {(k, n)};
  }

  lemma PushFuel(s: State, q: Queue, c: Cmd)
    requires Shape(s) && Enabled(s, Push(0, q, c))
    ensures Fuel(Next(s, Push(0, q, c))) <= Fuel(s) + 13
  {
    var t := AfterPush(s, 0, q, c);
    var k := Slot(s.producers[0].dev, q);
    TotalUpdate(s.producers, 0, t.producers[0], ProducerFuel);
    PendingGrows(s.slots, k, LaneOf(t.slots, k));
  }

  lemma FindBurns(t: Table, d: nat)
    requires Shape(t.sched) && CanMove(t, Find(d))
    ensures TableFuel(Moved(t, Find(d))) < TableFuel(t)
  {
    GetFuel(t.sched, d);
  }

  lemma SendBurns(t: Table, q: Queue, c: Cmd)
    requires Shape(t.sched) && CanMove(t, Send(q, c))
    ensures TableFuel(Moved(t, Send(q, c))) < TableFuel(t)
  {
    PushFuel(t.sched, q, c);
  }

  lemma DoneBurns(t: Table)
    requires Inv(t.sched) && CanMove(t, Done)
    ensures TableFuel(Moved(t, Done)) < TableFuel(t)
  {
    StepBurns(t.sched, Drop(0));
  }

  lemma MoveBurns(t: Table, m: Move)
    requires TableInv(t) && CanMove(t, m) && QuietMove(m)
    ensures TableFuel(Moved(t, m)) < TableFuel(t)
  {
    if m.Find? {
      FindBurns(t, m.dev);
    } else if m.Send? {
      SendBurns(t, m.queue, m.cmd);
    } else if m.Done? {
      DoneBurns(t);
    } else if m.Step? {
      StepBurns(t.sched, m.step);
    }
  }

  /** A run without new rows and new work from other callers is bounded. */
  lemma {:induction false} QuietMovesAreBounded(tables: seq<Table>, moves: seq<Move>, i: nat, j: nat)
    requires IsTableRun(tables, moves) && i <= j < |tables|
    requires forall k | i <= k < j :: QuietMove(moves[k])
    ensures j - i + TableFuel(tables[j]) <= TableFuel(tables[i])
  {
    if i == j {
    } else {
      QuietMovesAreBounded(tables, moves, i, j - 1);
      TableRunInv(tables, moves, j - 1);
      MoveBurns(tables[j - 1], moves[j - 1]);
    }
  }

  lemma {:induction false} TableNobodyLeft(tables: seq<Table>, moves: seq<Move>, i: nat)
    requires IsTableRun(tables, moves) && i < |tables|
    ensures NobodyLeft(tables[i].sched)
  {
    if i == 0 {
    } else {
      TableNobodyLeft(tables, moves, i - 1);
      TableRunInv(tables, moves, i - 1);
      MoveKeepsNobodyLeft(tables[i - 1], moves[i - 1]);
    }
  }

  lemma MoveKeepsNobodyLeft(t: Table, m: Move)
    requires TableInv(t) && CanMove(t, m) && NobodyLeft(t.sched)
    ensures NobodyLeft(Moved(t, m).sched)
  {
    match m
    case Find(d) => KeepNobodyLeft(t.sched, Get(0, d));
    case Send(q, c) => KeepNobodyLeft(t.sched, Push(0, q, c));
    case Done => KeepNobodyLeft(t.sched, Drop(0));
    case Step(l, _) => KeepNobodyLeft(t.sched, l);
    case _ =>
  }

  /** The monitor can go on with what it has fetched. */
  lemma MonitorCanGo(t: Table) returns (m: Move)
    requires Shape(t.sched) && MonitorOk(t) && t.mon != Asleep
    ensures OwnMove(m) && CanMove(t, m)
  {
    match t.mon
    case Between(todo) => m := if todo == [] then EndProbe else NoDevice(0);
    case Got(_, _) => m := BadArgs(0);
    case Marked(_, _) => m := Done;
    case Sent(_, _) =>
      match t.sched.producers[0].phase {
        case Ready => m := Mark;
        case Pushed => m := Step(Request(0), 0);
        case Posting => m := Step(Post(0), 0);
        case Unlocking => m := Step(Unlock(0), 0);
      }
  }

  lemma TableCanGo(t: Table) returns (m: Move)
    requires TableInv(t) && NobodyLeft(t.sched) && Staffed(t.sched) && !t.sched.quit
    requires t.mon != Asleep || !AtRest(t.sched)
    ensures OwnMove(m) && CanMove(t, m)
  {
    if t.mon != Asleep {
      m := MonitorCanGo(t);
    } else {
      var l := RestlessCanGo(t.sched);
      m := Step(l, 0);
    }
  }

  /** Where both have come to a stop, every row ever fetched is done and marked. */
  lemma StoppedRow(t: Table, id: nat)
    requires TableInv(t) && NobodyLeft(t.sched) && Staffed(t.sched) && !t.sched.quit && TableStopped(t)
    requires id in t.probed
    ensures id in t.rows && t.rows[id].done && t.rows[id].processing >= 1
  {
    if t.mon != Asleep || !AtRest(t.sched) {
      var m := TableCanGo(t);
      assert false;
    }
    IdleRow(t, id);
  }

  /** Wherever monitor and scheduler come to a stop in a run, and without new rows and work they do, every
      row that was ever fetched is done and marked. */
  lemma EveryRowGetsDone(tables: seq<Table>, moves: seq<Move>, i: nat, id: nat)
    requires IsTableRun(tables, moves) && i < |tables| && id in tables[i].probed
    requires Staffed(tables[i].sched) && !tables[i].sched.quit
    requires Shape(tables[i].sched) && TableStopped(tables[i])
    ensures id in tables[i].rows && tables[i].rows[id].done && tables[i].rows[id].processing >= 1
  {
    TableRunInv(tables, moves, i);
    TableNobodyLeft(tables, moves, i);
    StoppedRow(tables[i], id);
  }

  // ---------------------------------------------------------------- they get there by themselves

  /** What a table state needs for its monitor and scheduler to finish. */
  ghost predicate Intact(t: Table) { TableInv(t) && NobodyLeft(t.sched) && Staffed(t.sched) && !t.sched.quit }

  lemma SchedulerKeepsIntact(s: State, l: Label)
    requires Inv(s) && NobodyLeft(s) && Staffed(s) && !s.quit && Enabled(s, l) && !l.Quit?
    ensures NobodyLeft(Next(s, l)) && Staffed(Next(s, l)) && !Next(s, l).quit
  {
    KeepNobodyLeft(s, l);
    StepKeepsStaff(s, l);
    StaffedStays(s, Next(s, l));
  }

  lemma OwnMoveKeepsIntact(t: Table, m: Move)
    requires Intact(t) && CanMove(t, m) && OwnMove(m)
    ensures Intact(Moved(t, m)) && Moved(t, m).probed == t.probed
  {
    KeepTable(t, m);
    match m
    case Find(d) => SchedulerKeepsIntact(t.sched, Get(0, d));
    case Send(q, c) => SchedulerKeepsIntact(t.sched, Push(0, q, c));
    case Done => SchedulerKeepsIntact(t.sched, Drop(0));
    case Step(l, _) => SchedulerKeepsIntact(t.sched, l);
    case _ =>
  }

  /** The moves lead from one table to the other. */
  ghost predicate Leads(t: Table, moves: seq<Move>, u: Table)
    decreases |moves|
  {
    if moves == [] then t == u
    else Shape(t.sched) && CanMove(t, moves[0]) && Leads(Moved(t, moves[0]), moves[1..], u)
  }

  ghost predicate AllDone(t: Table, ids: set<nat>) {
    forall id | id in ids :: id in t.rows && t.rows[id].done && t.rows[id].processing >= 1
  }

  lemma StoppedIsDone(t: Table)
    requires Intact(t) && TableStopped(t)
    ensures AllDone(t, t.probed)
  {
    forall id | id in t.probed ensures id in t.rows && t.rows[id].done && t.rows[id].processing >= 1 {
      StoppedRow(t, id);
    }
  }

  lemma OwnMoveLeads(t: Table, m: Move)
    requires Intact(t) && CanMove(t, m) && OwnMove(m)
    ensures Intact(Moved(t, m)) && Moved(t, m).probed == t.probed && TableFuel(Moved(t, m)) < TableFuel(t)
  {
    OwnMoveKeepsIntact(t, m);
    MoveBurns(t, m);
  }

  lemma LeadsBefore(t: Table, m: Move, moves: seq<Move>, u: Table)
    requires Shape(t.sched) && CanMove(t, m) && Leads(Moved(t, m), moves, u)
    ensures Leads(t, [m] + moves, u)
  {
    assert ([m] + moves)[1..] == moves;
  }

  /** From every state monitor and scheduler can get, by moves of their own alone, to where every row fetched
      so far is done and marked. */
  lemma {:induction false} RowsCanFinish(t: Table) returns (moves: seq<Move>, u: Table)
    requires Intact(t)
    ensures Leads(t, moves, u) && (forall m | m in moves :: OwnMove(m)) && u.probed == t.probed
    ensures AllDone(u, t.probed)
    decreases TableFuel(t)
  {
    if TableStopped(t) {
      moves, u := [], t;
      StoppedIsDone(t);
    } else {
      var m :| CanMove(t, m) && OwnMove(m);
      OwnMoveLeads(t, m);
      var rest;
      rest, u := RowsCanFinish(Moved(t, m));
      LeadsBefore(t, m, rest, u);
      moves := [m] + rest;
    }
  }
}
