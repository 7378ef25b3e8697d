/** Every post and every wake-up is accounted for. */
module SchedulerPosts {
  import opened Basics
  import opened Scheduler
  import opened SchedulerInvariant
  import opened SchedulerRefs
  import opened SchedulerWake
  import opened SchedulerRuns

  // ---------------------------------------------------------------- what is counted

  ghost predicate AsksAt(s: State, l: Label, q: Queue) {
    l.Request? && l.p < |s.producers| && s.producers[l.p].At? && s.producers[l.p].queue == q
  }

  /** A device is put on an empty list. */
  ghost predicate AsksEmpty(s: State, l: Label, q: Queue) { Shape(s) && AsksAt(s, l, q) && s.exec[q] == [] }

  ghost predicate PostsAt(s: State, l: Label, q: Queue) {
    l.Post? && l.p < |s.producers| && s.producers[l.p].At? && s.producers[l.p].queue == q
  }

  ghost predicate WakesAt(s: State, l: Label, q: Queue) {
    l.Wake? && l.w < |s.workers| && s.workers[l.w].queue == q
  }

  ghost predicate QuitPosts(s: State, l: Label, q: Queue) { l == QuitPost(q) }

  ghost function One(b: bool): nat { if b then 1 else 0 }

  /** How often it happened in the first `n` steps of a run. */
  ghost function Tally(states: seq<State>, labels: seq<Label>, n: nat, q: Queue, f: (State, Label, Queue) -> bool): nat
    requires n <= |labels| < |states|
  {
    if n == 0 then 0 else Tally(states, labels, n - 1, q, f) + One(f(states[n - 1], labels[n - 1], q))
  }

  // ---------------------------------------------------------------- one step

  /** The semaphore goes up with a post and down with a wake-up. */
  ghost predicate SemOk(s: State, l: Label, t: State, q: Queue)
    requires Shape(s) && Shape(t)
  {
    t.sem[q] + One(WakesAt(s, l, q)) == s.sem[q] + One(PostsAt(s, l, q)) + One(QuitPosts(s, l, q))
  }

  /** A post comes due when an empty list gets a device, and is due until it is made. */
  ghost predicate DueOk(s: State, l: Label, t: State, q: Queue) {
    |Posters(t.producers, q)| + One(PostsAt(s, l, q)) == |Posters(s.producers, q)| + One(AsksEmpty(s, l, q))
  }

  /** The posts of `Cleanup` are due from quit on. */
  ghost predicate QuitOk(s: State, l: Label, t: State, q: Queue)
    requires Shape(s) && Shape(t)
  {
    t.posts[q] + One(QuitPosts(s, l, q)) == s.posts[q] + if l.Quit? then THREAD_MAP[q] else 0
  }

  lemma ProducerPosts(s: State, l: Label, q: Queue)
    requires Inv(s) && Enabled(s, l) && ByProducer(l)
    ensures Shape(Effect(s, l)) && SemOk(s, l, Effect(s, l), q) && QuitOk(s, l, Effect(s, l), q)
  {
  }

  lemma PosterCount(producers: seq<Producer>, p: nat, pr: Producer, q: Queue)
    requires p < |producers|
    ensures |Posters(producers[p := pr], q)| + One(IsPoster(producers[p], q))
         == |Posters(producers, q)| + One(IsPoster(pr, q))
  {
    PosterSet(producers, p, pr, q);
  }

  ghost predicate IsPoster(pr: Producer, q: Queue) { pr.At? && pr.queue == q && pr.phase.Posting? }

  lemma RequestDue(s: State, p: nat, q: Queue)
    requires Inv(s) && Enabled(s, Request(p))
    ensures var t := AfterRequest(s, p);
      !IsPoster(s.producers[p], q) && (IsPoster(t.producers[p], q) <==> AsksEmpty(s, Request(p), q))
  {
    KeepTokensRequest(s, p);
  }

  lemma OtherDue(s: State, l: Label, q: Queue)
    requires Shape(s) && Enabled(s, l) && ByProducer(l) && !l.Request?
    ensures var t := Effect(s, l);
      && l.p < |t.producers| == |s.producers| && !IsPoster(t.producers[l.p], q)
      && (IsPoster(s.producers[l.p], q) <==> PostsAt(s, l, q))
  {
  }

  lemma ProducerDue(s: State, l: Label, q: Queue)
    requires Inv(s) && Enabled(s, l) && ByProducer(l)
    ensures DueOk(s, l, Effect(s, l), q)
  {
    ProducerFrame(s, l);
    if l.Request? {
      RequestDue(s, l.p, q);
    } else {
      OtherDue(s, l, q);
    }
    PosterCount(s.producers, l.p, Effect(s, l).producers[l.p], q);
  }

  lemma LoopPosts(s: State, l: Label, q: Queue)
    requires Shape(s) && Enabled(s, l) && ByWorker(l) && !InExecute(l)
    ensures Shape(Effect(s, l)) && SemOk(s, l, Effect(s, l), q) && QuitOk(s, l, Effect(s, l), q)
  {
  }

  lemma ExecutePosts(s: State, l: Label, q: Queue)
    requires Shape(s) && Enabled(s, l) && InExecute(l)
    ensures Shape(Effect(s, l)) && SemOk(s, l, Effect(s, l), q) && QuitOk(s, l, Effect(s, l), q)
  {
  }

  lemma CleanupPosts(s: State, l: Label, q: Queue)
    requires Shape(s) && Enabled(s, l) && ByCleanup(l) && (!s.quit ==> s.posts[q] == 0)
    ensures Shape(Effect(s, l)) && SemOk(s, l, Effect(s, l), q) && QuitOk(s, l, Effect(s, l), q)
  {
  }

  lemma MonitorPosts(s: State, l: Label, q: Queue)
    requires Shape(s) && Enabled(s, l) && ByMonitor(l)
    ensures Shape(Effect(s, l)) && SemOk(s, l, Effect(s, l), q) && QuitOk(s, l, Effect(s, l), q)
  {
    MonitorFrame(s, l);
  }

  ghost predicate NoneBeforeQuit(s: State) { Shape(s) && (!s.quit ==> forall q: Queue :: s.posts[q] == 0) }

  lemma EffectCounts(s: State, l: Label, q: Queue)
    requires Inv(s) && NoneBeforeQuit(s) && Enabled(s, l)
    ensures Shape(Effect(s, l)) && SemOk(s, l, Effect(s, l), q) && QuitOk(s, l, Effect(s, l), q)
  {
    if ByProducer(l) {
      ProducerPosts(s, l, q);
    } else if InExecute(l) {
      ExecutePosts(s, l, q);
    } else if ByWorker(l) {
      LoopPosts(s, l, q);
    } else if ByCleanup(l) {
      CleanupPosts(s, l, q);
    } else {
      MonitorPosts(s, l, q);
    }
  }

  lemma EffectDue(s: State, l: Label, q: Queue)
    requires Inv(s) && Enabled(s, l)
    ensures DueOk(s, l, Effect(s, l), q)
  {
    if ByProducer(l) {
      ProducerDue(s, l, q);
    } else if ByWorker(l) {
      WorkerFrame(s, l);
    } else if ByCleanup(l) {
      CleanupFrame(s, l);
    } else {
      MonitorFrame(s, l);
    }
  }

  /** Setting the flag is what sets it. */
  lemma QuitIsSetByQuit(s: State, l: Label)
    requires Inv(s) && Enabled(s, l)
    ensures Effect(s, l).quit == (s.quit || l.Quit?)
  {
    if ByProducer(l) {
      ProducerFrame(s, l);
    } else if ByWorker(l) {
      WorkerFrame(s, l);
    } else if ByCleanup(l) {
      CleanupQuits(s, l);
    } else {
      MonitorFrame(s, l);
    }
  }

  lemma CleanupQuits(s: State, l: Label)
    requires Shape(s) && Enabled(s, l) && ByCleanup(l)
    ensures Effect(s, l).quit == (s.quit || l.Quit?)
  {
  }

  // ---------------------------------------------------------------- runs

  /** The books of queue `q` after `n` steps. */
  ghost predicate Balanced(t: State, q: Queue, woken: nat, posted: nat, empties: nat, quitPosts: nat) {
    && Shape(t) && t.sem[q] + woken == posted + quitPosts
    && posted + |Posters(t.producers, q)| == empties
    && t.posts[q] + quitPosts == if t.quit then THREAD_MAP[q] else 0
  }

  lemma StepBalances(s: State, l: Label, q: Queue, woken: nat, posted: nat, empties: nat, quitPosts: nat)
    requires Inv(s) && NoneBeforeQuit(s) && Enabled(s, l) && Balanced(s, q, woken, posted, empties, quitPosts)
    ensures Balanced(Next(s, l), q, woken + One(WakesAt(s, l, q)), posted + One(PostsAt(s, l, q)),
                     empties + One(AsksEmpty(s, l, q)), quitPosts + One(QuitPosts(s, l, q)))
  {
    FlushCancelsNothing(s, l);
    EffectCounts(s, l, q);
    EffectDue(s, l, q);
    QuitIsSetByQuit(s, l);
  }

  ghost predicate Books(states: seq<State>, labels: seq<Label>, n: nat, q: Queue)
    requires n <= |labels| < |states|
  {
    Balanced(states[n], q, Tally(states, labels, n, q, WakesAt), Tally(states, labels, n, q, PostsAt),
             Tally(states, labels, n, q, AsksEmpty), Tally(states, labels, n, q, QuitPosts))
  }

  lemma BooksMore(states: seq<State>, labels: seq<Label>, n: nat, q: Queue)
    requires IsRun(states, labels) && n < |labels| && Inv(states[n]) && NoneBeforeQuit(states[n])
    requires Books(states, labels, n, q)
    ensures Books(states, labels, n + 1, q)
  {
    StepBalances(states[n], labels[n], q, Tally(states, labels, n, q, WakesAt), Tally(states, labels, n, q, PostsAt),
                 Tally(states, labels, n, q, AsksEmpty), Tally(states, labels, n, q, QuitPosts));
  }

  lemma InitBooks(s: State, q: Queue)
    requires Init(s)
    ensures Balanced(s, q, 0, 0, 0, 0)
  {
    assert Posters(s.producers, q) == {};
  }

  lemma AllBooksQuiet(states: seq<State>, labels: seq<Label>, n: nat)
    requires n <= |labels| < |states| && forall q: Queue :: Books(states, labels, n, q)
    ensures NoneBeforeQuit(states[n])
  {
    assert Books(states, labels, n, 0);
    forall q: Queue ensures !states[n].quit ==> states[n].posts[q] == 0 { assert Books(states, labels, n, q); }
  }

  /** In every state of every run and for every queue: posts made are wake-ups taken and posts still waiting; a
      caller posts exactly for each device put on an empty list, some still about to; and `Cleanup` posts exactly
      once for each thread of the pool, some still to come. */
  lemma {:induction false} PostsAreExact(states: seq<State>, labels: seq<Label>, n: nat)
    requires IsRun(states, labels) && Init(states[0]) && n <= |labels|
    ensures forall q: Queue :: Books(states, labels, n, q)
  {
    if n == 0 {
      forall q: Queue ensures Books(states, labels, 0, q) { InitBooks(states[0], q); }
    } else {
      PostsAreExact(states, labels, n - 1);
      AllBooksQuiet(states, labels, n - 1);
      RunInv(states, labels, n - 1);
      forall q: Queue ensures Books(states, labels, n, q) {
        assert Books(states, labels, n - 1, q);
        BooksMore(states, labels, n - 1, q);
      }
    }
  }
}
