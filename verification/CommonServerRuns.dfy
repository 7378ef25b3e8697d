/** What every run of the common server keeps and comes to. */
module CommonServerRuns {
  import opened Basics
  import opened Reconcile
  import opened Sums
  import opened CommonServer

  ghost predicate IsRun(states: seq<State>, labels: seq<Label>) {
    && |states| == |labels| + 1 && states[0] == INIT
    && forall i | 0 <= i < |labels| :: Enabled(states[i], labels[i]) && states[i + 1] == Next(states[i], labels[i])
  }

  lemma {:induction false} RunInv(states: seq<State>, labels: seq<Label>, i: nat)
    requires IsRun(states, labels) && i < |states|
    ensures Inv(states[i])
  {
    if i == 0 {
    } else {
      RunInv(states, labels, i - 1);
      KeepInv(states[i - 1], labels[i - 1]);
    }
  }

  /** No record is ever freed twice, or freed while it is still in somebody's hands or inside its callback. */
  lemma FreedAtMostOnce(states: seq<State>, labels: seq<Label>, i: nat, r: nat)
    requires IsRun(states, labels) && i < |states| && In(states[i].freed, r) > 0
    ensures var s := states[i];
      && In(s.freed, r) == 1 && r < |s.sessions| && s.sessions[r] == Stopped
      && r !in s.list && r !in s.ending && s.acceptor != Pushing(r) && s.acceptor != Starting(r)
      && s.unloader != Dropping(r)
  {
    RunInv(states, labels, i);
    var s := states[i];
    assert Places(s, r) == Is(r < |s.sessions|);
    InMember(s.list, r);
    InMember(s.ending, r);
  }

  /** When Unload returns, every record ever created has been freed, exactly once. */
  lemma UnloadFreesAll(states: seq<State>, labels: seq<Label>, i: nat, r: nat)
    requires IsRun(states, labels) && i < |states| && states[i].unloader == Unloaded && r < |states[i].sessions|
    ensures In(states[i].freed, r) == 1
  {
    RunInv(states, labels, i);
    assert Places(states[i], r) == 1;
  }

  /** Before quit, a record whose session has ended and which is still listed will be scanned: its event is
      about to be posted, has been posted, has woken the cleanup thread, or the scan has yet to reach it. */
  lemma EndIsNotForgotten(states: seq<State>, labels: seq<Label>, i: nat, k: nat)
    requires IsRun(states, labels) && i < |states| && !states[i].quit
    requires k < |states[i].list| && Over(states[i], states[i].list[k])
    ensures var s := states[i];
      || Enabled(s, MPost(s.list[k])) || s.sem > 0 || s.cleaner == Woken || s.cleaner == Locking
      || (s.cleaner.Scanning? && s.cleaner.pos <= k)
  {
    RunInv(states, labels, i);
    assert Found(states[i], k);
  }

  // ---------------------------------------------------------------- Unload comes to an end

  function ToGo(p: Session): nat {
    match p
    case New => 3
    case Running => 2
    case Ended => 1
    case Posted => 0
    case Stopped => 0
  }

  function AcceptorFuel(a: Acceptor): nat {
    match a
    case Deciding => 1
    case Connecting => 12
    case Pushing(_) => 8
    case Starting(_) => 2
    case AcceptorLeft => 0
  }

  function CleanerFuel(c: Cleaner, n: nat): nat {
    match c
    case Waiting => 2
    case Woken => 1
    case Locking => 5 + n
    case Scanning(pos) => 4 + if pos < n then n - pos else 0
    case Freeing => 3
    case CleanerLeft => 0
  }

  function UnloaderFuel(u: Unloader): nat {
    match u
    case Serving => 6
    case JoiningAcceptor => 5
    case Posting => 4
    case JoiningCleaner => 3
    case Draining => 2
    case Dropping(_) => 3
    case Unloaded => 0
  }

  function Fuel(s: State): nat {
    Total(s.sessions, ToGo) + 4 * |s.list| + 2 * |s.ending|
    + AcceptorFuel(s.acceptor) + CleanerFuel(s.cleaner, |s.list|) + UnloaderFuel(s.unloader)
  }

  lemma EnterFuel(s: State, r: nat, p: Session)
    requires r < |s.sessions|
    ensures Total(Enter(s, r, p).sessions, ToGo) == Total(s.sessions, ToGo) - ToGo(s.sessions[r]) + ToGo(p)
  {
    TotalUpdate(s.sessions, r, p, ToGo);
  }

  lemma ClientBurns(s: State, l: Label)
    requires Inv(s) && s.quit && Enabled(s, l) && ByClient(l)
    ensures Fuel(Next(s, l)) < Fuel(s)
  {
    match l
    case AConnect => TotalLast(s.sessions, New, ToGo);
    case AStart => EnterFuel(s, s.acceptor.rec, Running);
    case MEnd(r) => EnterFuel(s, r, Ended);
    case MPost(r) => EnterFuel(s, r, Posted);
    case _ =>
  }

  lemma StopFuel(s: State, r: nat)
    requires Inv(s) && Places(s, r) > 0
    ensures Total(Enter(s, r, Stopped).sessions, ToGo) <= Total(s.sessions, ToGo)
  {
    assert Places(s, r) == Is(r < |s.sessions|);
    EnterFuel(s, r, Stopped);
  }

  lemma CleanerBurns(s: State, l: Label)
    requires Inv(s) && s.quit && Enabled(s, l) && ByCleaner(l)
    ensures Fuel(Next(s, l)) < Fuel(s)
  {
    if l.CFree? {
      StopFuel(s, s.ending[0]);
    }
  }

  lemma UnloaderBurns(s: State, l: Label)
    requires Inv(s) && s.quit && Enabled(s, l) && ByUnloader(l)
    ensures Fuel(Next(s, l)) < Fuel(s)
  {
    if l.UFree? {
      StopFuel(s, s.unloader.rec);
    }
  }

  /** Once quit is set, every step of every thread uses up fuel. */
  lemma StepBurns(s: State, l: Label)
    requires Inv(s) && s.quit && Enabled(s, l)
    ensures Fuel(Next(s, l)) < Fuel(s)
  {
    if ByClient(l) {
      ClientBurns(s, l);
    } else if ByUnloader(l) {
      UnloaderBurns(s, l);
    } else {
      CleanerBurns(s, l);
    }
  }

  lemma QuitStays(s: State, l: Label)
    requires Enabled(s, l) && s.quit
    ensures Next(s, l).quit
  {
  }

  /** So a run makes at most that many steps after Unload began. */
  lemma {:induction false} UnloadIsBounded(states: seq<State>, labels: seq<Label>, i: nat, j: nat)
    requires IsRun(states, labels) && i <= j < |states| && states[i].quit
    ensures states[j].quit && j - i + Fuel(states[j]) <= Fuel(states[i])
  {
    if i == j {
    } else {
      UnloadIsBounded(states, labels, i, j - 1);
      RunInv(states, labels, j - 1);
      QuitStays(states[j - 1], labels[j - 1]);
      StepBurns(states[j - 1], labels[j - 1]);
    }
  }

  /** And until Unload returns there is always a step to make, by a thread of the server or by a callback
      that is about to post. */
  lemma UnloadIsNeverStuck(states: seq<State>, labels: seq<Label>, i: nat) returns (l: Label)
    requires IsRun(states, labels) && i < |states| && states[i].quit && states[i].unloader != Unloaded
    ensures Enabled(states[i], l) && !l.MEnd?
  {
    RunInv(states, labels, i);
    var s := states[i];
    if s.cleaner.Scanning? {
      l := if s.cleaner.pos < |s.list| then CScan else CScanned;
    } else {
      match s.unloader
      case JoiningAcceptor =>
        match s.acceptor {
          case Deciding => l := ADecide;
          case Connecting => l := ATimeout;
          case Pushing(_) => l := APush;
          case Starting(_) => l := AStart;
          case AcceptorLeft => l := UJoinAcceptor;
        }
      case Posting => l := UPost;
      case JoiningCleaner =>
        match s.cleaner {
          case Waiting => l := CWake;
          case Woken => l := CCheck;
          case Locking => l := CLock;
          case Freeing =>
            if s.ending == [] {
              l := CFreed;
            } else {
              l := if Stoppable(s, s.ending[0]) then CFree else MPost(s.ending[0]);
            }
          case CleanerLeft => l := UJoinCleaner;
        }
      case Draining => l := if s.list == [] then UFinish else UPop;
      case Dropping(r) => l := if Stoppable(s, r) then UFree else MPost(r);
    }
  }
}
