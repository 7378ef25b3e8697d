/** Runs without new work end with everything done. */
module SchedulerFinish {
  import opened Basics
  import opened Scheduler
  import opened SchedulerInvariant
  import opened SchedulerRefs
  import opened SchedulerRuns
  import opened SchedulerFuel
  import opened SchedulerProgress

  /** Before quit or after it, a run without new work is no longer than the fuel it starts with. */
  lemma {:induction false} QuietIsBounded(states: seq<State>, labels: seq<Label>)
    requires IsRun(states, labels) && Reachable(states[0])
    requires forall i | 0 <= i < |labels| :: Quiet(labels[i])
    ensures |labels| <= Fuel(states[0])
  {
    ReachableInv(states[0]);
    BoundedFrom(states, labels, 0);
  }

  lemma {:induction false} BoundedFrom(states: seq<State>, labels: seq<Label>, i: nat)
    requires IsRun(states, labels) && i < |states| && Inv(states[i])
    requires forall i | 0 <= i < |labels| :: Quiet(labels[i])
    ensures |labels| - i <= Fuel(states[i])
    decreases |labels| - i
  {
    if i == |labels| {
    } else {
      StepBurns(states[i], labels[i]);
      BoundedFrom(states, labels, i + 1);
    }
  }

  /** The same threads for the same queues. */
  ghost predicate SameStaff(s: State, t: State) {
    |t.workers| == |s.workers| && forall w | 0 <= w < |s.workers| :: t.workers[w].queue == s.workers[w].queue
  }

  lemma EffectKeepsStaff(s: State, l: Label)
    requires Shape(s) && Enabled(s, l)
    ensures SameStaff(s, Effect(s, l)) && (l.Quit? || Effect(s, l).quit == s.quit)
  {
    if ByMonitor(l) {
      MonitorFrame(s, l);
    } else if ByProducer(l) {
      ProducerFrame(s, l);
    } else if ByWorker(l) {
      WorkerFrame(s, l);
    } else {
      CleanupFrame(s, l);
    }
  }

  lemma StepKeepsStaff(s: State, l: Label)
    requires Inv(s) && Enabled(s, l)
    ensures SameStaff(s, Next(s, l)) && (l.Quit? || Next(s, l).quit == s.quit)
  {
    FlushCancelsNothing(s, l);
    EffectKeepsStaff(s, l);
  }

  lemma StaffedStays(s: State, t: State)
    requires SameStaff(s, t) && Staffed(s)
    ensures Staffed(t)
  {
    forall q: Queue ensures Pool(t.workers, q) != {} {
      var w :| w in Pool(s.workers, q);
      assert w in Pool(t.workers, q);
    }
  }

  lemma RunAfter(states: seq<State>, labels: seq<Label>, l: Label)
    requires IsRun(states, labels) && Shape(states[|labels|]) && Enabled(states[|labels|], l)
    ensures IsRun(states + [Next(states[|labels|], l)], labels + [l])
  {
    var more, steps := states + [Next(states[|labels|], l)], labels + [l];
    forall i | 0 <= i < |steps|
      ensures Shape(more[i]) && Enabled(more[i], steps[i]) && more[i + 1] == Next(more[i], steps[i])
    {
      assert more[i] == states[i] && (i < |labels| ==> steps[i] == labels[i] && more[i + 1] == states[i + 1]);
    }
  }

  lemma ReachableNext(s: State, l: Label)
    requires Reachable(s) && Shape(s) && Enabled(s, l)
    ensures Reachable(Next(s, l))
  {
    var states, labels :| IsRun(states, labels) && Init(states[0]) && s == states[|states| - 1];
    RunAfter(states, labels, l);
    ReachedBy(states + [Next(s, l)], labels + [l]);
  }

  lemma ReachedBy(states: seq<State>, labels: seq<Label>)
    requires IsRun(states, labels) && Init(states[0])
    ensures Reachable(states[|states| - 1])
  {
  }

  /** A state of a run without new work. */
  lemma {:induction false} QuietRunKeeps(states: seq<State>, labels: seq<Label>, i: nat)
    requires IsRun(states, labels) && i < |states| && forall k | 0 <= k < |labels| :: Quiet(labels[k])
    requires Reachable(states[0]) && Staffed(states[0])
    ensures Reachable(states[i]) && Staffed(states[i]) && states[i].quit == states[0].quit
  {
    if i == 0 {
    } else {
      QuietRunKeeps(states, labels, i - 1);
      ReachableInv(states[i - 1]);
      ReachableNext(states[i - 1], labels[i - 1]);
      StepKeepsStaff(states[i - 1], labels[i - 1]);
      StaffedStays(states[i - 1], states[i]);
    }
  }

  /** Every run without new work is bounded, and where the scheduler then has come to a stop, every command
      that was ever accepted is done. */
  lemma QuietRunsFinish(states: seq<State>, labels: seq<Label>)
    requires IsRun(states, labels) && forall k | 0 <= k < |labels| :: Quiet(labels[k])
    requires Reachable(states[0]) && Staffed(states[0]) && !states[0].quit
    ensures |labels| <= Fuel(states[0])
    ensures var t := states[|labels|];
      Shape(t) && (Stopped(t) ==> forall c | c in t.fate :: t.fate[c].Over?)
  {
    QuietIsBounded(states, labels);
    QuietRunKeeps(states, labels, |labels|);
    var t := states[|labels|];
    ReachableInv(t);
    if Stopped(t) {
      AllWorkGetsDone(t);
    }
  }

  lemma OwnStepKeeps(s: State, l: Label)
    requires Reachable(s) && Staffed(s) && !s.quit && Shape(s) && Enabled(s, l) && OwnStep(l)
    ensures Reachable(Next(s, l)) && Staffed(Next(s, l)) && !Next(s, l).quit && Fuel(Next(s, l)) < Fuel(s)
  {
    ReachableInv(s);
    StepBurns(s, l);
    ReachableNext(s, l);
    StepKeepsStaff(s, l);
    StaffedStays(s, Next(s, l));
  }

  /** A run by the scheduler's own steps to where it has come to a stop and everything is done. */
  ghost predicate Finishes(s: State, states: seq<State>, labels: seq<Label>) {
    && IsRun(states, labels) && states[0] == s && (forall k | 0 <= k < |labels| :: OwnStep(labels[k]))
    && var t := states[|labels|]; Shape(t) && Stopped(t) && forall c | c in t.fate :: t.fate[c].Over?
  }

  /** Such a run exists from everywhere: nobody from outside is needed. */
  lemma {:induction false} CanFinish(s: State) returns (states: seq<State>, labels: seq<Label>)
    requires Reachable(s) && Staffed(s) && !s.quit
    ensures Finishes(s, states, labels)
    decreases Fuel(s)
  {
    ReachableInv(s);
    if Stopped(s) {
      states, labels := [s], [];
      AllWorkGetsDone(s);
    } else {
      var l :| Enabled(s, l) && OwnStep(l);
      OwnStepKeeps(s, l);
      var more, steps := CanFinish(Next(s, l));
      states, labels := [s] + more, [l] + steps;
      FinishesBefore(s, l, more, steps);
    }
  }

  lemma FinishesBefore(s: State, l: Label, states: seq<State>, labels: seq<Label>)
    requires Shape(s) && Enabled(s, l) && OwnStep(l) && Finishes(Next(s, l), states, labels)
    ensures Finishes(s, [s] + states, [l] + labels)
  {
    RunBefore(s, l, states, labels);
    assert ([s] + states)[|labels| + 1] == states[|labels|];
    assert forall k | 0 < k < |labels| + 1 :: ([l] + labels)[k] == labels[k - 1];
  }

  lemma RunBefore(s: State, l: Label, states: seq<State>, labels: seq<Label>)
    requires IsRun(states, labels) && Shape(s) && Enabled(s, l) && states[0] == Next(s, l)
    ensures IsRun([s] + states, [l] + labels)
  {
    var more, steps := [s] + states, [l] + labels;
    forall i | 0 <= i < |steps|
      ensures Shape(more[i]) && Enabled(more[i], steps[i]) && more[i + 1] == Next(more[i], steps[i])
    {
      if i > 0 {
        assert more[i] == states[i - 1] && steps[i] == labels[i - 1] && more[i + 1] == states[i];
      }
    }
  }
}
