/** In which order devices are served, and where commands run. */
module SchedulerOrder {
  import opened Basics
  import opened Scheduler
  import opened SchedulerInvariant
  import opened SchedulerRecords
  import opened SchedulerRuns
  import opened SchedulerFates
  import SchedulerRefs

  // ---------------------------------------------------------------- devices

  /** The device that step `i` of a run asks queue `q` to serve, if it does. */
  ghost function AskedAt(states: seq<State>, labels: seq<Label>, i: nat, q: Queue): seq<nat>
    requires IsRun(states, labels) && i < |labels|
  {
    if labels[i].Request? && states[i].producers[labels[i].p].queue == q
    then [states[i].producers[labels[i].p].dev] else []
  }

  /** The device that a worker of queue `q` holds after step `i`, if it has taken it off the list with it. */
  ghost function PoppedAt(states: seq<State>, labels: seq<Label>, i: nat, q: Queue): seq<nat>
    requires IsRun(states, labels) && i < |labels|
  {
    if labels[i].Fetch? && states[i].workers[labels[i].w].queue == q && Pops(states[i + 1], labels[i].w)
    then [states[i + 1].workers[labels[i].w].pc.dev] else []
  }

  ghost predicate Pops(t: State, w: nat) { w < |t.workers| && t.workers[w].pc.Popped? }

  /** The first `n` steps of a run, in order. */
  ghost function Asked(states: seq<State>, labels: seq<Label>, n: nat, q: Queue): seq<nat>
    requires IsRun(states, labels) && n <= |labels|
  {
    if n == 0 then [] else Asked(states, labels, n - 1, q) + AskedAt(states, labels, n - 1, q)
  }

  ghost function Served(states: seq<State>, labels: seq<Label>, n: nat, q: Queue): seq<nat>
    requires IsRun(states, labels) && n <= |labels|
  {
    if n == 0 then [] else Served(states, labels, n - 1, q) + PoppedAt(states, labels, n - 1, q)
  }

  /** What a step puts behind the list, and what it takes off the front. */
  lemma ListMoves(s: State, l: Label, q: Queue, asked: seq<nat>, popped: seq<nat>)
    requires Inv(s) && Enabled(s, l)
    requires asked == if l.Request? && s.producers[l.p].queue == q then [s.producers[l.p].dev] else []
    requires popped == if l.Fetch? && s.workers[l.w].queue == q && Pops(Effect(s, l), l.w)
                       then [Effect(s, l).workers[l.w].pc.dev] else []
    ensures Shape(Effect(s, l)) && s.exec[q] + asked == popped + Effect(s, l).exec[q]
  {
    KeepShape(s, l);
    if l.Request? {
      KeepTokensRequest(s, l.p);
    } else if l.Fetch? {
      FetchMoves(s, l.w, q, popped);
    } else {
      OtherMoves(s, l, q);
    }
  }

  lemma FetchMoves(s: State, w: nat, q: Queue, popped: seq<nat>)
    requires Shape(s) && Enabled(s, Fetch(w))
    requires var t := AfterFetch(s, w);
      popped == if s.workers[w].queue == q && Pops(t, w) then [t.workers[w].pc.dev] else []
    ensures s.exec[q] == popped + AfterFetch(s, w).exec[q]
  {
  }

  lemma OtherMoves(s: State, l: Label, q: Queue)
    requires Shape(s) && Enabled(s, l) && !l.Request? && !l.Fetch?
    ensures Shape(Effect(s, l)) && Effect(s, l).exec[q] == s.exec[q]
  {
    KeepShape(s, l);
    if ByMonitor(l) {
      MonitorFrame(s, l);
    } else if ByProducer(l) {
      ProducerFrame(s, l);
    } else if InExecute(l) {
      ExecuteFrame(s, l);
    } else if ByWorker(l) {
      LoopFrame(s, l);
    } else {
      CleanupFrame(s, l);
    }
  }

  /** In every run and for every queue, devices are served in the order in which they were asked for: those asked
      for are those taken off the list, in order, followed by those still on it. */
  lemma {:induction false} ServedInOrder(states: seq<State>, labels: seq<Label>, n: nat, q: Queue)
    requires IsRun(states, labels) && Init(states[0]) && n <= |labels|
    ensures Shape(states[n]) && Asked(states, labels, n, q) == Served(states, labels, n, q) + states[n].exec[q]
  {
    RunInv(states, labels, n);
    if n == 0 {
    } else {
      var s, t, l := states[n - 1], states[n], labels[n - 1];
      var asked, popped := AskedAt(states, labels, n - 1, q), PoppedAt(states, labels, n - 1, q);
      ServedInOrder(states, labels, n - 1, q);
      RunInv(states, labels, n - 1);
      SchedulerRefs.FlushCancelsNothing(s, l);
      ListMoves(s, l, q, asked, popped);
      Associative(Served(states, labels, n - 1, q), s.exec[q], asked);
      Associative(Served(states, labels, n - 1, q), popped, t.exec[q]);
    }
  }

  // ---------------------------------------------------------------- commands

  /** A record that moves on comes from the same queue of the same device. */
  lemma TurnsInPlace(s: State, l: Label)
    requires Inv(s) && Enabled(s, l) && Turns(s, l).Some? && !l.Push?
    ensures var turn := Turns(s, l).value; turn.0 in s.fate && s.fate[turn.0].slot == turn.1.slot
  {
    TurnsFrom(s, l);
    if l.Take? {
      var k := WorkerSlot(s.workers[l.w]);
      assert QueuedAt(s, k) && LaneOf(s.slots, k).cmds[0] in LaneOf(s.slots, k).cmds;
    }
  }

  ghost predicate Is(s: State, c: Cmd, k: Slot) { c in s.fate && s.fate[c].slot == k }

  lemma FateKeepsSlot(s: State, l: Label, c: Cmd, k: Slot)
    requires Inv(s) && Enabled(s, l) && Is(s, c, k)
    ensures Is(Next(s, l), c, k)
  {
    StepFate(s, l);
    if Turns(s, l).Some? && !l.Push? {
      TurnsInPlace(s, l);
    }
  }

  lemma KeepsItsSlot(states: seq<State>, labels: seq<Label>, i: nat, j: nat, c: Cmd, k: Slot)
    requires IsRun(states, labels) && Init(states[0]) && i <= j < |states| && Is(states[i], c, k)
    ensures Is(states[j], c, k)
  {
    forall m | i <= m < j && Is(states[m], c, k) ensures Is(states[m + 1], c, k) {
      RunStep(states, labels, m);
      FateKeepsSlot(states[m], labels[m], c, k);
    }
    Onward(states, s => Is(s, c, k), i, j);
  }

  lemma PushedHere(s: State, p: nat, q: Queue, c: Cmd)
    requires Inv(s) && Enabled(s, Push(p, q, c))
    ensures Is(Next(s, Push(p, q, c)), c, Slot(s.producers[p].dev, q))
  {
    StepFate(s, Push(p, q, c));
  }

  lemma CalledInPlace(s: State, w: nat, cb: Callback)
    requires Inv(s) && Enabled(s, Call(w, cb))
    ensures Is(s, s.workers[w].pc.cmd, WorkerSlot(s.workers[w]))
  {
  }

  // The device a caller works on is the one it was given.

  lemma StepKeepsDevice(s: State, l: Label, p: nat)
    requires Shape(s) && Enabled(s, l) && p < |s.producers| && s.producers[p].At? && l != Drop(p)
    ensures var t := Effect(s, l);
      p < |t.producers| && t.producers[p].At? && t.producers[p].dev == s.producers[p].dev
  {
    if ByMonitor(l) {
      MonitorFrame(s, l);
    } else if ByProducer(l) {
      ProducerKeepsDevice(s, l, p);
    } else if ByWorker(l) {
      WorkerFrame(s, l);
    } else {
      CleanupFrame(s, l);
    }
  }

  lemma ProducerKeepsDevice(s: State, l: Label, p: nat)
    requires Shape(s) && Enabled(s, l) && ByProducer(l)
    requires p < |s.producers| && s.producers[p].At? && l != Drop(p)
    ensures var t := Effect(s, l);
      p < |t.producers| && t.producers[p].At? && t.producers[p].dev == s.producers[p].dev
  {
    ProducerFrame(s, l);
  }

  ghost predicate Has(s: State, p: nat, d: nat) {
    p < |s.producers| && s.producers[p].At? && s.producers[p].dev == d
  }

  lemma NextKeepsDevice(s: State, l: Label, p: nat, d: nat)
    requires Inv(s) && Enabled(s, l) && Has(s, p, d) && l != Drop(p)
    ensures Has(Next(s, l), p, d)
  {
    StepFate(s, l);
    StepKeepsDevice(s, l, p);
  }

  lemma NextGivesDevice(s: State, l: Label, p: nat, d: nat)
    requires Inv(s) && Enabled(s, l) && (l == Get(p, d) || l == Borrow(p, d))
    ensures Has(Next(s, l), p, d)
  {
    StepFate(s, l);
  }

  lemma HasItsDevice(states: seq<State>, labels: seq<Label>, k: nat, i: nat, p: nat, d: nat)
    requires IsRun(states, labels) && Init(states[0]) && k < i < |states|
    requires (labels[k] == Get(p, d) || labels[k] == Borrow(p, d)) && Drop(p) !in labels[k..i]
    ensures Has(states[i], p, d)
  {
    RunStep(states, labels, k);
    NextGivesDevice(states[k], labels[k], p, d);
    forall m | k < m < i && Has(states[m], p, d) ensures Has(states[m + 1], p, d) {
      RunStep(states, labels, m);
      assert labels[m] in labels[k..i] by { assert labels[k..i][m - k] == labels[m]; }
      NextKeepsDevice(states[m], labels[m], p, d);
    }
    Onward(states, s => Has(s, p, d), k + 1, i);
  }

  lemma RunStep(states: seq<State>, labels: seq<Label>, i: nat)
    requires IsRun(states, labels) && Init(states[0]) && i < |labels|
    ensures Inv(states[i]) && Enabled(states[i], labels[i]) && states[i + 1] == Next(states[i], labels[i])
  {
    RunInv(states, labels, i);
  }

  /** What every step keeps is kept from state `i` to state `j`. */
  lemma {:induction false} Onward<S>(states: seq<S>, f: S -> bool, i: nat, j: nat)
    requires i <= j < |states| && f(states[i]) && forall k | i <= k < j && f(states[k]) :: f(states[k + 1])
    ensures f(states[j])
  {
    if i == j {
    } else {
      Onward(states, f, i, j - 1);
    }
  }

  /** The worker has the command in its hands. */
  ghost predicate HasCmd(s: State, w: nat, c: Cmd) {
    w < |s.workers| && s.workers[w].pc.Serving? && s.workers[w].pc.cmd == c
  }

  ghost predicate WorksFor(s: State, w: nat, k: Slot) {
    w < |s.workers| && s.workers[w].queue == k.queue && s.workers[w].pc.Serving? && s.workers[w].pc.dev == k.dev
  }

  /** In every run: a caller gets or borrows a device and queues a command. Whenever a callback of that command
      is made, later it is, by a worker of the queue asked for, which has that device in its hands. */
  lemma RunsWhereQueued(states: seq<State>, labels: seq<Label>, k: nat, i: nat, j: nat,
                        p: nat, d: nat, q: Queue, c: Cmd, w: nat, cb: Callback)
    requires IsRun(states, labels) && Init(states[0]) && k < i < |labels| && j < |labels|
    requires (labels[k] == Get(p, d) || labels[k] == Borrow(p, d)) && Drop(p) !in labels[k..i]
    requires labels[i] == Push(p, q, c) && labels[j] == Call(w, cb) && HasCmd(states[j], w, c)
    ensures i < j && WorksFor(states[j], w, Slot(d, q))
  {
    HasItsDevice(states, labels, k, i, p, d);
    assert Is(states[i + 1], c, Slot(d, q)) && c !in states[i].fate by {
      RunStep(states, labels, i);
      PushedHere(states[i], p, q, c);
    }
    var at := WorkerSlot(states[j].workers[w]);
    assert Is(states[j], c, at) by {
      RunStep(states, labels, j);
      CalledInPlace(states[j], w, cb);
    }
    if j <= i {
      KeepsItsSlot(states, labels, j, i, c, at);
    } else {
      KeepsItsSlot(states, labels, i + 1, j, c, Slot(d, q));
    }
  }
}
