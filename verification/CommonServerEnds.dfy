/** A session ends when EndSession is called for it, and not before. */
module CommonServerEnds {
  import opened Basics
  import opened Reconcile
  import opened CommonServer
  import opened CommonServerRuns

  /** The step was made in the first `n` steps. */
  ghost predicate Made(labels: seq<Label>, n: nat, l: Label)
    requires n <= |labels|
  {
    exists k :: 0 <= k < n && labels[k] == l
  }

  lemma MadeMore(labels: seq<Label>, n: nat, l: Label)
    requires n < |labels|
    ensures Made(labels, n + 1, l) <==> Made(labels, n, l) || labels[n] == l
  {
    if labels[n] == l {
      assert labels[n] == l;
    }
    if Made(labels, n, l) {
      var k :| 0 <= k < n && labels[k] == l;
      assert 0 <= k < n + 1;
    }
  }

  /** The accept thread has started the session of record `r`. */
  ghost predicate StartMade(states: seq<State>, labels: seq<Label>, n: nat, r: nat)
    requires n <= |labels| < |states|
  {
    exists k :: 0 <= k < n && labels[k] == AStart && states[k].acceptor == Starting(r)
  }

  lemma StartMore(states: seq<State>, labels: seq<Label>, n: nat, r: nat)
    requires n < |labels| < |states|
    ensures StartMade(states, labels, n + 1, r)
       <==> StartMade(states, labels, n, r) || (labels[n] == AStart && states[n].acceptor == Starting(r))
  {
    if labels[n] == AStart && states[n].acceptor == Starting(r) {
      assert labels[n] == AStart;
    }
    if StartMade(states, labels, n, r) {
      var k :| 0 <= k < n && labels[k] == AStart && states[k].acceptor == Starting(r);
      assert 0 <= k < n + 1;
    }
  }

  // ---------------------------------------------------------------- one step

  /** How far a session has got, as far as it can be seen from the steps made. */
  ghost predicate Traced(s: State, r: nat, started: bool, ended: bool, posted: bool) {
    match SessionOf(s, r)
    case New => !started && !ended && !posted
    case Running => started && !ended && !posted
    case Ended => started && ended && !posted
    case Posted => started && ended && posted
    case Stopped => (ended <==> posted) && (ended ==> started) && (!s.quit && r < |s.sessions| ==> started && ended)
                    && (r >= |s.sessions| ==> !started)
  }

  lemma ClientTraces(s: State, l: Label, r: nat, started: bool, ended: bool, posted: bool)
    requires Inv(s) && Enabled(s, l) && ByClient(l) && Traced(s, r, started, ended, posted)
    ensures Traced(Next(s, l), r, started || (l == AStart && s.acceptor == Starting(r)), ended || l == MEnd(r),
                   posted || l == MPost(r))
  {
    if r < |s.sessions| {
      assert s.sessions[r] == New <==> s.acceptor == Pushing(r) || s.acceptor == Starting(r);
    }
    if l.AStart? {
      assert s.sessions[s.acceptor.rec] == New;
    }
  }

  lemma CleanerTraces(s: State, l: Label, r: nat, started: bool, ended: bool, posted: bool)
    requires Inv(s) && Enabled(s, l) && ByCleaner(l) && Traced(s, r, started, ended, posted)
    ensures Traced(Next(s, l), r, started || (l == AStart && s.acceptor == Starting(r)), ended || l == MEnd(r),
                   posted || l == MPost(r))
  {
    if l.CFree? {
      var e := s.ending[0];
      InMember(s.ending, e);
      assert Places(s, e) == Is(e < |s.sessions|);
      assert Over(s, e);
    }
  }

  lemma UnloaderTraces(s: State, l: Label, r: nat, started: bool, ended: bool, posted: bool)
    requires Inv(s) && Enabled(s, l) && ByUnloader(l) && Traced(s, r, started, ended, posted)
    ensures Traced(Next(s, l), r, started || (l == AStart && s.acceptor == Starting(r)), ended || l == MEnd(r),
                   posted || l == MPost(r))
  {
    if l.UFree? {
      assert Places(s, s.unloader.rec) == Is(s.unloader.rec < |s.sessions|);
    }
  }

  lemma StepTraces(s: State, l: Label, r: nat, started: bool, ended: bool, posted: bool)
    requires Inv(s) && Enabled(s, l) && Traced(s, r, started, ended, posted)
    ensures Traced(Next(s, l), r, started || (l == AStart && s.acceptor == Starting(r)), ended || l == MEnd(r),
                   posted || l == MPost(r))
  {
    if ByClient(l) {
      ClientTraces(s, l, r, started, ended, posted);
    } else if ByCleaner(l) {
      CleanerTraces(s, l, r, started, ended, posted);
    } else {
      UnloaderTraces(s, l, r, started, ended, posted);
    }
  }

  // ---------------------------------------------------------------- runs

  ghost predicate TracedAt(states: seq<State>, labels: seq<Label>, i: nat, r: nat)
    requires i <= |labels| < |states|
  {
    Traced(states[i], r, StartMade(states, labels, i, r), Made(labels, i, MEnd(r)), Made(labels, i, MPost(r)))
  }

  lemma TracesMore(states: seq<State>, labels: seq<Label>, i: nat, r: nat)
    requires IsRun(states, labels) && i < |labels| && Inv(states[i]) && TracedAt(states, labels, i, r)
    ensures TracedAt(states, labels, i + 1, r)
  {
    StepTraces(states[i], labels[i], r, StartMade(states, labels, i, r), Made(labels, i, MEnd(r)),
               Made(labels, i, MPost(r)));
    StartMore(states, labels, i, r);
    MadeMore(labels, i, MEnd(r));
    MadeMore(labels, i, MPost(r));
  }

  lemma {:induction false} RunTraces(states: seq<State>, labels: seq<Label>, i: nat, r: nat)
    requires IsRun(states, labels) && i < |states|
    ensures TracedAt(states, labels, i, r)
  {
    if i == 0 {
    } else {
      RunTraces(states, labels, i - 1, r);
      RunInv(states, labels, i - 1);
      TracesMore(states, labels, i - 1, r);
    }
  }

  /** In every state of every run: a session has ended, or its event is posted, only if EndSession was called for
      it; and before quit a record is freed only after that. */
  lemma EndedOnlyByEndSession(states: seq<State>, labels: seq<Label>, i: nat, r: nat)
    requires IsRun(states, labels) && i < |states|
    ensures Over(states[i], r) ==> Made(labels, i, MEnd(r))
    ensures In(states[i].freed, r) > 0 && !states[i].quit ==> Made(labels, i, MEnd(r)) && Made(labels, i, MPost(r))
  {
    RunTraces(states, labels, i, r);
    RunInv(states, labels, i);
    assert Places(states[i], r) == Is(r < |states[i].sessions|);
  }

  /** And before quit: a session runs, and its record is listed, if and only if the accept thread has started it
      and EndSession was not called for it. */
  lemma RunsIffNotEnded(states: seq<State>, labels: seq<Label>, i: nat, r: nat)
    requires IsRun(states, labels) && i < |states| && !states[i].quit
    ensures SessionOf(states[i], r) == Running <==> StartMade(states, labels, i, r) && !Made(labels, i, MEnd(r))
    ensures SessionOf(states[i], r) == Running ==> r in states[i].list
  {
    var s := states[i];
    RunTraces(states, labels, i, r);
    RunInv(states, labels, i);
    assert Places(s, r) == Is(r < |s.sessions|);
    InMember(s.list, r);
  }

  // ---------------------------------------------------------------- order and posts

  ghost predicate Ascending(list: seq<nat>, bound: nat) {
    && (forall i, j | 0 <= i < j < |list| :: list[i] < list[j])
    && forall i | 0 <= i < |list| :: list[i] < bound
  }

  /** Clients are listed in the order in which they were accepted, and the one about to be listed is the newest. */
  ghost predicate InOrder(s: State) {
    match s.acceptor
    case Pushing(r) => r + 1 == |s.sessions| && Ascending(s.list, r)
    case _ => Ascending(s.list, |s.sessions|)
  }

  lemma AscendingWithout(list: seq<nat>, i: nat, bound: nat)
    requires Ascending(list, bound) && i < |list|
    ensures Ascending(Without(list, i), bound)
  {
    var t := Without(list, i);
    assert forall k | 0 <= k < |t| :: t[k] == list[if k < i then k else k + 1];
  }

  lemma ClientKeepsOrder(s: State, l: Label)
    requires Enabled(s, l) && InOrder(s) && ByClient(l)
    ensures InOrder(Next(s, l))
  {
  }

  lemma ServerKeepsOrder(s: State, l: Label)
    requires Enabled(s, l) && InOrder(s) && !ByClient(l)
    ensures InOrder(Next(s, l))
  {
    var bound := if s.acceptor.Pushing? then s.acceptor.rec else |s.sessions|;
    if l.CScan? {
      AscendingWithout(s.list, s.cleaner.pos, bound);
    } else if l.UPop? {
      AscendingWithout(s.list, 0, bound);
      assert Without(s.list, 0) == s.list[1..];
    }
  }

  lemma StepKeepsOrder(s: State, l: Label)
    requires Enabled(s, l) && InOrder(s)
    ensures InOrder(Next(s, l))
  {
    if ByClient(l) {
      ClientKeepsOrder(s, l);
    } else {
      ServerKeepsOrder(s, l);
    }
  }

  /** How often the event was posted and the cleanup thread woken in the first `n` steps. */
  function Posted(labels: seq<Label>, n: nat): nat
    requires n <= |labels|
  {
    if n == 0 then 0 else Posted(labels, n - 1) + Is(labels[n - 1].MPost? || labels[n - 1].UPost?)
  }

  function Woken(labels: seq<Label>, n: nat): nat
    requires n <= |labels|
  {
    if n == 0 then 0 else Woken(labels, n - 1) + Is(labels[n - 1].CWake?)
  }

  lemma StepPosts(s: State, l: Label)
    requires Enabled(s, l)
    ensures Next(s, l).sem + Is(l.CWake?) == s.sem + Is(l.MPost? || l.UPost?)
  {
  }

  /** In every state of every run: the list is in the order of acceptance, and the semaphore counts the events
      posted, one for each ended session and one by Unload, that have not woken the cleanup thread yet. */
  lemma {:induction false} ListAndPosts(states: seq<State>, labels: seq<Label>, i: nat)
    requires IsRun(states, labels) && i < |states|
    ensures InOrder(states[i]) && states[i].sem + Woken(labels, i) == Posted(labels, i)
  {
    if i == 0 {
    } else {
      ListAndPosts(states, labels, i - 1);
      RunInv(states, labels, i - 1);
      StepKeepsOrder(states[i - 1], labels[i - 1]);
      StepPosts(states[i - 1], labels[i - 1]);
    }
  }
}
