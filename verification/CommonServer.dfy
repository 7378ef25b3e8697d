/** Ownership of client records in jni/libdevmgr/net/CommonServer.cpp: the accept thread, the cleanup thread, Unload,
    and the mux thread that ends sessions, interleaved step by step; and the invariant of that, which each group
    of steps keeps. */
module CommonServer {
  import opened Basics
  import opened Reconcile
  import opened Sums

  /** A session runs from Start to Stop; Ended is inside EndSession, between the flag and the post. */
  datatype Session = New | Running | Ended | Posted | Stopped

  datatype Acceptor = Deciding | Connecting | Pushing(rec: nat) | Starting(rec: nat) | AcceptorLeft

  /** Scanning holds the list lock; `pos` is the iterator. */
  datatype Cleaner = Waiting | Woken | Locking | Scanning(pos: nat) | Freeing | CleanerLeft

  datatype Unloader = Serving | JoiningAcceptor | Posting | JoiningCleaner | Draining | Dropping(rec: nat) | Unloaded

  /** Records are numbered in the order of their creation; `sessions` has one entry for each. */
  datatype State = State(
    sessions: seq<Session>, list: seq<nat>, ending: seq<nat>, freed: seq<nat>, sem: nat, quit: bool,
    acceptor: Acceptor, cleaner: Cleaner, unloader: Unloader)

  const INIT := State([], [], [], [], 0, false, Deciding, Waiting, Serving)

  datatype Label =
    | ADecide | AConnect | ATimeout | APush | AStart
    | MEnd(rec: nat) | MPost(rec: nat)
    | CWake | CCheck | CLock | CScan | CScanned | CFree | CFreed
    | UQuit | UJoinAcceptor | UPost | UJoinCleaner | UPop | UFree | UFinish

  function SessionOf(s: State, r: nat): Session { if r < |s.sessions| then s.sessions[r] else Stopped }

  predicate Over(s: State, r: nat) { SessionOf(s, r) == Ended || SessionOf(s, r) == Posted }

  /** The list lock is only ever held across steps by the scan. */
  predicate Unlocked(s: State) { !s.cleaner.Scanning? }

  /** Stop waits for the mux lock, so no record is freed inside its own callback. */
  predicate Stoppable(s: State, r: nat) { SessionOf(s, r) != Ended }

  predicate Enabled(s: State, l: Label) {
    match l
    case ADecide => s.acceptor == Deciding
    case AConnect => s.acceptor == Connecting
    case ATimeout => s.acceptor == Connecting
    case APush => s.acceptor.Pushing? && Unlocked(s)
    case AStart => s.acceptor.Starting?
    case MEnd(r) => SessionOf(s, r) == Running
    case MPost(r) => SessionOf(s, r) == Ended
    case CWake => s.cleaner == Waiting && s.sem > 0
    case CCheck => s.cleaner == Woken
    case CLock => s.cleaner == Locking
    case CScan => s.cleaner.Scanning? && s.cleaner.pos < |s.list|
    case CScanned => s.cleaner.Scanning? && s.cleaner.pos >= |s.list|
    case CFree => s.cleaner == Freeing && s.ending != [] && Stoppable(s, s.ending[0])
    case CFreed => s.cleaner == Freeing && s.ending == []
    case UQuit => s.unloader == Serving
    case UJoinAcceptor => s.unloader == JoiningAcceptor && s.acceptor == AcceptorLeft
    case UPost => s.unloader == Posting
    case UJoinCleaner => s.unloader == JoiningCleaner && s.cleaner == CleanerLeft
    case UPop => s.unloader == Draining && s.list != [] && Unlocked(s)
    case UFree => s.unloader.Dropping? && Stoppable(s, s.unloader.rec)
    case UFinish => s.unloader == Draining && s.list == [] && Unlocked(s)
  }

  function Enter(s: State, r: nat, p: Session): State {
    if r < |s.sessions| then s.(sessions := s.sessions[r := p]) else s
  }

  function Scan(s: State): State
    requires Enabled(s, CScan)
  {
    var pos := s.cleaner.pos;
    if Over(s, s.list[pos]) then s.(list := Without(s.list, pos), ending := s.ending + [s.list[pos]])
    else s.(cleaner := Scanning(pos + 1))
  }

  function Next(s: State, l: Label): State
    requires Enabled(s, l)
  {
    match l
    case ADecide => s.(acceptor := if s.quit then AcceptorLeft else Connecting)
    case AConnect => s.(acceptor := Pushing(|s.sessions|), sessions := s.sessions + [New])
    case ATimeout => s.(acceptor := Deciding)
    case APush => s.(list := s.list + [s.acceptor.rec], acceptor := Starting(s.acceptor.rec))
    case AStart => Enter(s, s.acceptor.rec, Running).(acceptor := Deciding)
    case MEnd(r) => Enter(s, r, Ended)
    case MPost(r) => Enter(s, r, Posted).(sem := s.sem + 1)
    case CWake => s.(sem := s.sem - 1, cleaner := Woken)
    case CCheck => s.(cleaner := if s.quit then CleanerLeft else Locking)
    case CLock => s.(cleaner := Scanning(0))
    case CScan => Scan(s)
    case CScanned => s.(cleaner := Freeing)
    case CFree => Enter(s, s.ending[0], Stopped).(ending := s.ending[1..], freed := s.freed + [s.ending[0]])
    case CFreed => s.(cleaner := Waiting)
    case UQuit => s.(quit := true, unloader := JoiningAcceptor)
    case UJoinAcceptor => s.(unloader := Posting)
    case UPost => s.(sem := s.sem + 1, unloader := JoiningCleaner)
    case UJoinCleaner => s.(unloader := Draining)
    case UPop => s.(list := s.list[1..], unloader := Dropping(s.list[0]))
    case UFree => Enter(s, s.unloader.rec, Stopped).(freed := s.freed + [s.unloader.rec], unloader := Draining)
    case UFinish => s.(unloader := Unloaded)
  }

  // ---------------------------------------------------------------- the invariant

  function Is(b: bool): nat { if b then 1 else 0 }

  function In(q: seq<nat>, r: nat): nat { Count(q, Itself, r) }

  /** Every record is in exactly one place: the accept thread's hands, the list, EndList, Unload's hands, freed. */
  function Places(s: State, r: nat): nat {
    Is(s.acceptor == Pushing(r)) + In(s.list, r) + In(s.ending, r) + Is(s.unloader == Dropping(r)) + In(s.freed, r)
  }

  ghost predicate Owned(s: State) {
    forall r: nat :: Places(s, r) == Is(r < |s.sessions|)
  }

  /** The accept thread alone has records whose session has not started; the one it starts is listed. */
  ghost predicate Started(s: State) {
    forall r: nat | r < |s.sessions| ::
      && (s.sessions[r] == New <==> s.acceptor == Pushing(r) || s.acceptor == Starting(r))
      && (s.acceptor == Starting(r) ==> In(s.list, r) > 0)
  }

  /** Only ended sessions leave through EndList, and exactly the freed ones are stopped. */
  ghost predicate Finished(s: State) {
    forall r: nat | r < |s.sessions| ::
      (s.sessions[r] == Stopped <==> In(s.freed, r) > 0) && (In(s.ending, r) > 0 ==> Over(s, r))
  }

  ghost predicate Threads(s: State) {
    && (s.quit <==> s.unloader != Serving)
    && (s.acceptor == AcceptorLeft ==> s.quit)
    && (s.cleaner == CleanerLeft ==> s.quit)
    && (s.acceptor.Starting? ==> s.acceptor.rec < |s.sessions|)
    && (!s.unloader.Serving? && !s.unloader.JoiningAcceptor? ==> s.acceptor == AcceptorLeft)
    && (s.unloader.Draining? || s.unloader.Dropping? || s.unloader.Unloaded? ==> s.cleaner == CleanerLeft)
    && (s.ending != [] ==> s.cleaner.Scanning? || s.cleaner == Freeing)
    && (s.cleaner.Scanning? ==> s.cleaner.pos <= |s.list|)
    && (s.unloader.Unloaded? ==> s.list == [])
    && (s.unloader.JoiningCleaner? ==> s.sem > 0 || s.cleaner == Woken || s.cleaner == CleanerLeft)
  }

  /** An ended session in the list will be found. */
  ghost predicate Found(s: State, i: nat)
    requires i < |s.list|
  {
    SessionOf(s, s.list[i]) == Posted ==>
      s.sem > 0 || s.cleaner == Woken || s.cleaner == Locking || (s.cleaner.Scanning? && s.cleaner.pos <= i)
  }

  ghost predicate Remembered(s: State) {
    !s.quit ==> forall i: nat | i < |s.list| :: Found(s, i)
  }

  ghost predicate Inv(s: State) {
    Owned(s) && Started(s) && Finished(s) && Threads(s) && Remembered(s)
  }

  // ---------------------------------------------------------------- each group of steps keeps it

  predicate ByClient(l: Label) {
    l.ADecide? || l.AConnect? || l.ATimeout? || l.APush? || l.AStart? || l.MEnd? || l.MPost?
  }

  predicate ByCleaner(l: Label) {
    l.CWake? || l.CCheck? || l.CLock? || l.CScan? || l.CScanned? || l.CFree? || l.CFreed?
  }

  predicate ByUnloader(l: Label) {
    l.UQuit? || l.UJoinAcceptor? || l.UPost? || l.UJoinCleaner? || l.UPop? || l.UFree? || l.UFinish?
  }

  lemma InLast(q: seq<nat>, r: nat, x: nat)
    ensures In(q + [r], x) == In(q, x) + Is(x == r)
  {
    CountSplit(q, [r], Itself, x);
    assert [r][1..] == [];
  }

  lemma InFirst(q: seq<nat>, x: nat)
    requires q != []
    ensures In(q, x) == Is(x == q[0]) + In(q[1..], x)
  {
  }

  lemma InWithout(q: seq<nat>, i: nat, x: nat)
    requires i < |q|
    ensures In(Without(q, i), x) == In(q, x) - Is(x == q[i])
  {
    CountWithout(q, i, Itself, x);
  }

  lemma {:induction false} InMember(q: seq<nat>, r: nat)
    ensures r in q <==> In(q, r) > 0
  {
    if q == [] {
    } else {
      InMember(q[1..], r);
    }
  }

  lemma KeepOwnedClient(s: State, l: Label)
    requires Inv(s) && Enabled(s, l) && ByClient(l)
    ensures Owned(Next(s, l))
  {
    var t := Next(s, l);
    forall r: nat ensures Places(t, r) == Is(r < |t.sessions|) {
      assert Places(s, r) == Is(r < |s.sessions|);
      if l.APush? { InLast(s.list, s.acceptor.rec, r); }
    }
  }

  lemma KeepOwnedCleaner(s: State, l: Label)
    requires Inv(s) && Enabled(s, l) && ByCleaner(l)
    ensures Owned(Next(s, l))
  {
    var t := Next(s, l);
    forall r: nat ensures Places(t, r) == Is(r < |t.sessions|) {
      assert Places(s, r) == Is(r < |s.sessions|);
      if l.CScan? {
        InWithout(s.list, s.cleaner.pos, r);
        InLast(s.ending, s.list[s.cleaner.pos], r);
      } else if l.CFree? {
        InLast(s.freed, s.ending[0], r);
      }
    }
  }

  lemma KeepOwnedUnloader(s: State, l: Label)
    requires Inv(s) && Enabled(s, l) && ByUnloader(l)
    ensures Owned(Next(s, l))
  {
    var t := Next(s, l);
    forall r: nat ensures Places(t, r) == Is(r < |t.sessions|) {
      assert Places(s, r) == Is(r < |s.sessions|);
      if l.UPop? {
        InFirst(s.list, r);
      } else if l.UFree? {
        InLast(s.freed, s.unloader.rec, r);
      }
    }
  }

  lemma KeepOwned(s: State, l: Label)
    requires Inv(s) && Enabled(s, l)
    ensures Owned(Next(s, l))
  {
    if ByClient(l) {
      KeepOwnedClient(s, l);
    } else if ByCleaner(l) {
      KeepOwnedCleaner(s, l);
    } else {
      KeepOwnedUnloader(s, l);
    }
  }

  lemma KeepStartedClient(s: State, l: Label)
    requires Inv(s) && Enabled(s, l) && ByClient(l)
    ensures Started(Next(s, l))
  {
    var t := Next(s, l);
    forall r: nat | r < |t.sessions|
      ensures t.sessions[r] == New <==> t.acceptor == Pushing(r) || t.acceptor == Starting(r)
      ensures t.acceptor == Starting(r) ==> In(t.list, r) > 0
    {
      assert Places(s, r) == Is(r < |s.sessions|);
      if l.APush? { InLast(s.list, s.acceptor.rec, r); }
    }
  }

  lemma KeepStartedCleaner(s: State, l: Label)
    requires Inv(s) && Enabled(s, l) && ByCleaner(l)
    ensures Started(Next(s, l))
  {
    var t := Next(s, l);
    forall r: nat | r < |t.sessions|
      ensures t.sessions[r] == New <==> t.acceptor == Pushing(r) || t.acceptor == Starting(r)
      ensures t.acceptor == Starting(r) ==> In(t.list, r) > 0
    {
      assert Places(s, r) == Is(r < |s.sessions|);
      if l.CScan? { InWithout(s.list, s.cleaner.pos, r); }
    }
  }

  lemma KeepStartedUnloader(s: State, l: Label)
    requires Inv(s) && Enabled(s, l) && ByUnloader(l)
    ensures Started(Next(s, l))
  {
    var t := Next(s, l);
    forall r: nat | r < |t.sessions|
      ensures t.sessions[r] == New <==> t.acceptor == Pushing(r) || t.acceptor == Starting(r)
      ensures t.acceptor == Starting(r) ==> In(t.list, r) > 0
    {
      assert Places(s, r) == Is(r < |s.sessions|);
      if l.UPop? { InFirst(s.list, r); }
    }
  }

  lemma KeepStarted(s: State, l: Label)
    requires Inv(s) && Enabled(s, l)
    ensures Started(Next(s, l))
  {
    if ByClient(l) {
      KeepStartedClient(s, l);
    } else if ByCleaner(l) {
      KeepStartedCleaner(s, l);
    } else {
      KeepStartedUnloader(s, l);
    }
  }

  lemma KeepFinishedClient(s: State, l: Label)
    requires Inv(s) && Enabled(s, l) && ByClient(l)
    ensures Finished(Next(s, l))
  {
    var t := Next(s, l);
    forall r: nat | r < |t.sessions|
      ensures (t.sessions[r] == Stopped <==> In(t.freed, r) > 0) && (In(t.ending, r) > 0 ==> Over(t, r))
    {
      assert Places(s, r) == Is(r < |s.sessions|);
    }
  }

  lemma KeepFinishedCleaner(s: State, l: Label)
    requires Inv(s) && Enabled(s, l) && ByCleaner(l)
    ensures Finished(Next(s, l))
  {
    var t := Next(s, l);
    forall r: nat | r < |t.sessions|
      ensures (t.sessions[r] == Stopped <==> In(t.freed, r) > 0) && (In(t.ending, r) > 0 ==> Over(t, r))
    {
      assert Places(s, r) == Is(r < |s.sessions|);
      if l.CScan? {
        InLast(s.ending, s.list[s.cleaner.pos], r);
      } else if l.CFree? {
        InLast(s.freed, s.ending[0], r);
      }
    }
  }

  lemma KeepFinishedUnloader(s: State, l: Label)
    requires Inv(s) && Enabled(s, l) && ByUnloader(l)
    ensures Finished(Next(s, l))
  {
    var t := Next(s, l);
    forall r: nat | r < |t.sessions|
      ensures (t.sessions[r] == Stopped <==> In(t.freed, r) > 0) && (In(t.ending, r) > 0 ==> Over(t, r))
    {
      assert Places(s, r) == Is(r < |s.sessions|);
      if l.UFree? { InLast(s.freed, s.unloader.rec, r); }
    }
  }

  lemma KeepFinished(s: State, l: Label)
    requires Inv(s) && Enabled(s, l)
    ensures Finished(Next(s, l))
  {
    if ByClient(l) {
      KeepFinishedClient(s, l);
    } else if ByCleaner(l) {
      KeepFinishedCleaner(s, l);
    } else {
      KeepFinishedUnloader(s, l);
    }
  }

  lemma KeepThreadsClient(s: State, l: Label)
    requires Inv(s) && Enabled(s, l) && ByClient(l)
    ensures Threads(Next(s, l))
  {
    assert s.acceptor.Pushing? ==> Places(s, s.acceptor.rec) > 0;
  }

  lemma KeepThreadsCleaner(s: State, l: Label)
    requires Inv(s) && Enabled(s, l) && ByCleaner(l)
    ensures Threads(Next(s, l))
  {
  }

  lemma KeepThreadsUnloader(s: State, l: Label)
    requires Inv(s) && Enabled(s, l) && ByUnloader(l)
    ensures Threads(Next(s, l))
  {
  }

  lemma KeepThreads(s: State, l: Label)
    requires Inv(s) && Enabled(s, l)
    ensures Threads(Next(s, l))
  {
    if ByClient(l) {
      KeepThreadsClient(s, l);
    } else if ByCleaner(l) {
      KeepThreadsCleaner(s, l);
    } else {
      KeepThreadsUnloader(s, l);
    }
  }

  lemma KeepRemembered(s: State, l: Label)
    requires Inv(s) && Enabled(s, l)
    ensures Remembered(Next(s, l))
  {
    var t := Next(s, l);
    if !t.quit {
      forall i: nat | i < |t.list| ensures Found(t, i) {
        match l
        case CScan =>
          var k := if t.list == s.list || i < s.cleaner.pos then i else i + 1;
          assert Found(s, k);
        case APush => if i < |s.list| { assert Found(s, i); }
        case _ => assert Found(s, i);
      }
    }
  }

  lemma KeepInv(s: State, l: Label)
    requires Inv(s) && Enabled(s, l)
    ensures Inv(Next(s, l))
  {
    KeepOwned(s, l);
    KeepStarted(s, l);
    KeepFinished(s, l);
    KeepThreads(s, l);
    KeepRemembered(s, l);
  }
}
