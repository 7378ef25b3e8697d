/** Semaphores: no wake-up is lost although `Request` posts only when its list was empty, and after the quit
    flag is set there is a post for every worker that may still wait. A list that is not empty has a post
    waiting, a caller that is about to post, or a worker awake that will look at it. */
module SchedulerWake {
  import opened Basics
  import opened Scheduler
  import opened SchedulerInvariant

  function Posters(producers: seq<Producer>, q: Queue): set<nat> {
    Where(producers, (pr: Producer) => pr.At? && pr.queue == q && pr.phase.Posting?)
  }

  function AwakeOf(workers: seq<Worker>, q: Queue): set<nat> {
    Where(workers, (wk: Worker) => wk.queue == q && Awake(wk.pc))
  }

  function Waiters(workers: seq<Worker>, q: Queue): set<nat> {
    Where(workers, (wk: Worker) => wk.queue == q && wk.pc.Waiting?)
  }

  ghost predicate WakeAt(s: State, q: Queue)
    requires Shape(s)
  {
    s.exec[q] != [] ==> s.sem[q] > 0 || Posters(s.producers, q) != {} || AwakeOf(s.workers, q) != {}
  }

  ghost predicate Wakeful(s: State)
    requires Shape(s)
  {
    forall q: Queue :: WakeAt(s, q)
  }

  ghost predicate EnoughPosts(s: State)
    requires Shape(s)
  {
    && (forall q: Queue :: |Pool(s.workers, q)| <= THREAD_MAP[q])
    && (s.quit ==> forall q: Queue :: |Waiters(s.workers, q)| <= s.sem[q] + s.posts[q])
  }

  lemma WorkerSets(workers: seq<Worker>, w: nat, wk: Worker, q: Queue)
    requires w < |workers| && wk.queue == workers[w].queue
    ensures AwakeOf(workers[w := wk], q)
         == AwakeOf(workers, q) - {w} + (if wk.queue == q && Awake(wk.pc) then {w} else {})
    ensures |Waiters(workers[w := wk], q)| - |Waiters(workers, q)|
         == (if wk.queue == q && wk.pc.Waiting? then 1 else 0)
          - (if wk.queue == q && workers[w].pc.Waiting? then 1 else 0)
    ensures |Pool(workers[w := wk], q)| == |Pool(workers, q)|
  {
    WhereUpdate(workers, w, wk, (wk: Worker) => wk.queue == q && Awake(wk.pc));
    WhereUpdate(workers, w, wk, (wk: Worker) => wk.queue == q && wk.pc.Waiting?);
    WhereUpdate(workers, w, wk, (wk: Worker) => wk.queue == q);
  }

  lemma PosterSet(producers: seq<Producer>, p: nat, pr: Producer, q: Queue)
    requires p < |producers|
    ensures Posters(producers[p := pr], q)
         == Posters(producers, q) - {p} + (if pr.At? && pr.queue == q && pr.phase.Posting? then {p} else {})
  {
    WhereUpdate(producers, p, pr, (pr: Producer) => pr.At? && pr.queue == q && pr.phase.Posting?);
  }

  lemma KeepWakefulRequest(s: State, p: nat)
    requires Shape(s) && Wakeful(s) && EnoughPosts(s) && Enabled(s, Request(p))
    ensures Shape(AfterRequest(s, p)) && Wakeful(AfterRequest(s, p)) && EnoughPosts(AfterRequest(s, p))
  {
    var t := AfterRequest(s, p);
    forall q: Queue ensures WakeAt(t, q) {
      assert WakeAt(s, q);
      PosterSet(s.producers, p, t.producers[p], q);
    }
  }

  /** A caller moved; the list of its queue may have got an entry, then a post is due. */
  lemma KeepWakefulProducer(s: State, p: nat, t: State)
    requires Shape(s) && Shape(t) && Wakeful(s) && EnoughPosts(s) && ProducerOnly(s, t, p)
    requires forall q: Queue :: t.exec[q] == s.exec[q] && s.sem[q] <= t.sem[q]
    requires s.producers[p].At? && s.producers[p].phase.Posting? ==> t.sem[s.producers[p].queue] > 0
    ensures Wakeful(t) && EnoughPosts(t)
  {
    forall q: Queue ensures WakeAt(t, q) {
      assert WakeAt(s, q);
      PosterSet(s.producers, p, t.producers[p], q);
    }
  }

  lemma InsideLists(s: State, l: Label)
    requires Shape(s) && Enabled(s, l) && InQueueCmd(l) && !l.Request?
    ensures var t := Effect(s, l);
      Shape(t) && t.exec == s.exec && (forall q: Queue :: s.sem[q] <= t.sem[q])
      && (l.Post? ==> t.sem[s.producers[l.p].queue] > 0)
  {
  }

  lemma KeepWakefulInside(s: State, l: Label)
    requires Shape(s) && Wakeful(s) && EnoughPosts(s) && Enabled(s, l) && InQueueCmd(l)
    ensures Shape(Effect(s, l)) && Wakeful(Effect(s, l)) && EnoughPosts(Effect(s, l))
  {
    if l.Request? {
      KeepWakefulRequest(s, l.p);
    } else {
      InsideFrame(s, l);
      InsideLists(s, l);
      KeepWakefulProducer(s, l.p, Effect(s, l));
    }
  }

  lemma OutsideLists(s: State, l: Label)
    requires Shape(s) && Enabled(s, l) && ByProducer(l) && !InQueueCmd(l)
    ensures var t := Effect(s, l);
      Shape(t) && t.exec == s.exec && t.sem == s.sem && (s.producers[l.p].At? ==> s.producers[l.p].phase.Ready?)
  {
  }

  lemma KeepWakefulOutside(s: State, l: Label)
    requires Shape(s) && Wakeful(s) && EnoughPosts(s) && Enabled(s, l) && ByProducer(l) && !InQueueCmd(l)
    ensures Shape(Effect(s, l)) && Wakeful(Effect(s, l)) && EnoughPosts(Effect(s, l))
  {
    OutsideFrame(s, l);
    OutsideLists(s, l);
    KeepWakefulProducer(s, l.p, Effect(s, l));
  }

  /** A worker moved; it may have taken a post, and it may have found its list empty. */
  lemma KeepWakefulWorker(s: State, w: nat, t: State)
    requires Shape(s) && Shape(t) && Wakeful(s) && EnoughPosts(s) && WorkerAt(s, w)
    requires |t.workers| == |s.workers| && t.workers == s.workers[w := t.workers[w]]
    requires t.producers == s.producers && t.posts == s.posts && t.quit == s.quit
    requires t.workers[w].queue == s.workers[w].queue
    requires forall q: Queue | q != s.workers[w].queue :: t.exec[q] == s.exec[q] && t.sem[q] == s.sem[q]
    requires var q := s.workers[w].queue;
      && (t.exec[q] != [] ==> s.exec[q] != [])
      && (Awake(t.workers[w].pc) || t.exec[q] == [] || (t.sem[q] == s.sem[q] && !Awake(s.workers[w].pc)))
      && (t.sem[q] == s.sem[q] || (t.sem[q] + 1 == s.sem[q] && s.workers[w].pc.Waiting?))
      && !(t.workers[w].pc.Waiting? && (s.quit || t.sem[q] < s.sem[q]))
    ensures Wakeful(t) && EnoughPosts(t)
  {
    forall q: Queue
      ensures WakeAt(t, q) && |Pool(t.workers, q)| <= THREAD_MAP[q]
      ensures t.quit ==> |Waiters(t.workers, q)| <= t.sem[q] + t.posts[q]
    {
      assert WakeAt(s, q);
      WorkerSets(s.workers, w, t.workers[w], q);
    }
  }

  lemma KeepWakefulFetch(s: State, w: nat)
    requires Shape(s) && Wakeful(s) && EnoughPosts(s) && Enabled(s, Fetch(w))
    ensures Shape(AfterFetch(s, w)) && Wakeful(AfterFetch(s, w)) && EnoughPosts(AfterFetch(s, w))
  {
    KeepWakefulWorker(s, w, AfterFetch(s, w));
  }

  lemma KeepWakefulWake(s: State, w: nat)
    requires Shape(s) && Wakeful(s) && EnoughPosts(s) && Enabled(s, Wake(w))
    ensures var t := Effect(s, Wake(w)); Shape(t) && Wakeful(t) && EnoughPosts(t)
  {
    KeepWakefulWorker(s, w, Effect(s, Wake(w)));
  }

  lemma KeepWakefulInLoop(s: State, l: Label)
    requires Shape(s) && Wakeful(s) && EnoughPosts(s) && Enabled(s, l) && ByWorker(l) && !InExecute(l)
    ensures Shape(Effect(s, l)) && Wakeful(Effect(s, l)) && EnoughPosts(Effect(s, l))
  {
    if l.Fetch? {
      KeepWakefulFetch(s, l.w);
    } else if l.Wake? {
      KeepWakefulWake(s, l.w);
    } else {
      KeepWakefulWorker(s, l.w, Effect(s, l));
    }
  }

  lemma ExecuteStaysAwake(s: State, l: Label)
    requires Shape(s) && Enabled(s, l) && InExecute(l)
    ensures var t := Effect(s, l);
      WorkerOnly(s, t, l.w) && Shape(t) && t.exec == s.exec && t.sem == s.sem && Awake(t.workers[l.w].pc)
  {
    ExecuteFrame(s, l);
  }

  lemma KeepWakefulInExecute(s: State, l: Label)
    requires Shape(s) && Wakeful(s) && EnoughPosts(s) && Enabled(s, l) && InExecute(l)
    ensures Shape(Effect(s, l)) && Wakeful(Effect(s, l)) && EnoughPosts(Effect(s, l))
  {
    ExecuteStaysAwake(s, l);
    KeepWakefulWorker(s, l.w, Effect(s, l));
  }

  lemma KeepWakefulByMonitor(s: State, l: Label)
    requires Shape(s) && Wakeful(s) && EnoughPosts(s) && Enabled(s, l) && ByMonitor(l)
    ensures Shape(Effect(s, l)) && Wakeful(Effect(s, l)) && EnoughPosts(Effect(s, l))
  {
    MonitorFrame(s, l);
    forall q: Queue ensures WakeAt(Effect(s, l), q) {
      assert WakeAt(s, q);
    }
  }

  lemma KeepWakefulByCleanup(s: State, l: Label)
    requires Shape(s) && Wakeful(s) && EnoughPosts(s) && Enabled(s, l) && ByCleanup(l)
    ensures Shape(Effect(s, l)) && Wakeful(Effect(s, l)) && EnoughPosts(Effect(s, l))
  {
    var t := Effect(s, l);
    forall q: Queue
      ensures WakeAt(t, q) && |Pool(t.workers, q)| <= THREAD_MAP[q]
      ensures |Waiters(t.workers, q)| <= t.sem[q] + t.posts[q]
    {
      assert WakeAt(s, q) && Waiters(s.workers, q) <= Pool(s.workers, q);
      SubsetSize(Waiters(s.workers, q), Pool(s.workers, q));
    }
  }

  lemma KeepWakeful(s: State, l: Label)
    requires Shape(s) && Wakeful(s) && EnoughPosts(s) && Enabled(s, l)
    ensures Shape(Effect(s, l)) && Wakeful(Effect(s, l)) && EnoughPosts(Effect(s, l))
  {
    if ByMonitor(l) {
      KeepWakefulByMonitor(s, l);
    } else if InQueueCmd(l) {
      KeepWakefulInside(s, l);
    } else if ByProducer(l) {
      KeepWakefulOutside(s, l);
    } else if InExecute(l) {
      KeepWakefulInExecute(s, l);
    } else if ByWorker(l) {
      KeepWakefulInLoop(s, l);
    } else {
      KeepWakefulByCleanup(s, l);
    }
  }

  lemma SubsetSize<T>(a: set<T>, b: set<T>)
    requires a <= b
    ensures |a| <= |b|
  {
    assert b == a + (b - a);
  }
}
