/**
  * What holds over every run of the step system, whatever the interleaving and
  * whatever the backend answers.
  */
module Runs {
  import opened Text
  import opened Sessions
  import opened Protocol

  lemma StartIsGood()
    ensures Inv(START)
  {}

  lemma RunIsGood(run: seq<Action>)
    ensures Inv(After(START, run))
  {
    StartIsGood();
    RunsKeep(START, run);
  }

  // ---------- Nothing leaks ----------

  /** Whenever nobody holds the lock, the record accounts for everything that is still there. */
  lemma NothingLeaks(run: seq<Action>)
    ensures var s := After(START, run);
      s.lock.Free? ==>
        && (forall x :: x in s.backend.live ==> s.record.path == Some(x) || x in s.backend.givenUp)
        && (forall c :: c in s.backend.configs ==> s.record.config == Some(c) || c in s.backend.removed)
        && (forall h :: h in s.backend.spawned ==> h in s.record.tasks || h in s.backend.aborted)
  {
    hide After, LockIsExclusive, HolderFits, AllSound, RecordIsWhole;
    RunIsGood(run);
  }

  /** At every moment, no session in the record means no config, no task and no credential in it either. */
  lemma RecordIsNeverHalf(run: seq<Action>)
    ensures var r := After(START, run).record;
      && (r.path.None? ==> r.config.None? && r.tasks == {} && !r.secrets)
      && (r.path.Some? ==> r.config == r.path && forall h :: h in r.tasks ==> h.session == r.path.value)
  {
    hide After, LockIsExclusive, HolderFits, AllSound, Accounted;
    RunIsGood(run);
  }

  /** When a Disconnect is about to return, only sessions that twice refused to go are left. */
  lemma DisconnectLeavesNothing(run: seq<Action>, j: nat)
    requires j < |After(START, run).discs| && After(START, run).discs[j].Exit?
    ensures var s := After(START, run);
      && s.record.path.None? && s.record.config.None? && s.record.tasks == {} && !s.record.secrets
      && s.backend.live <= s.backend.givenUp
      && s.backend.configs <= s.backend.removed
      && s.backend.spawned <= s.backend.aborted
  {
    hide After, AllSound;
    RunIsGood(run);
  }

  // ---------- The guards of a session ----------

  lemma SessionIsSafe(run: seq<Action>, i: nat)
    requires i < |After(START, run).conns|
    ensures Safe(After(START, run).conns[i].session)
  {
    hide After, LockIsExclusive, HolderFits, RecordIsWhole, Accounted, Safe;
    RunIsGood(run);
  }

  /** One task at a time in the emission, one success, two attempts. */
  lemma Ip4ConfigOnce(run: seq<Action>, i: nat)
    requires i < |After(START, run).conns|
    ensures var x := After(START, run).conns[i].session;
      && !(x.listener.at.Emitting? && x.poller.at.Emitting?) && !x.attention.at.Emitting?
      && x.shared.sent <= 1
      && (x.shared.sent == 1 ==> !x.listener.at.Emitting? && !x.poller.at.Emitting?)
      && x.listener.tries + x.attention.tries + x.poller.tries <= 2
  {
    hide After;
    SessionIsSafe(run, i);
  }

  /**
    * The tasks of a session send one Failure at most; where the flag is looked at
    * first, on a Stopped status and in the attention task, never for a disconnect
    * of the plugin's own making.
    */
  lemma FailureOnce(run: seq<Action>, i: nat)
    requires i < |After(START, run).conns|
    ensures var fs := After(START, run).conns[i].session.shared.failures;
      |fs| <= 1 && forall k :: 0 <= k < |fs| && IsChecked(fs[k].reason) ==> !fs[k].own
  {
    hide After;
    SessionIsSafe(run, i);
  }

  /** Only the session's own tasks touch its emit guard: a step of any other call or task leaves it alone. */
  lemma GuardIsPrivate(s: State, a: Action, i: nat)
    requires i < |s.conns|
    requires !(a.SessionTask? && a.session == i)
    ensures i < |Next(s, a).conns|
    ensures Next(s, a).conns[i].session.shared.ip4Guard == s.conns[i].session.shared.ip4Guard
    ensures Next(s, a).conns[i].session.shared.failGuard == s.conns[i].session.shared.failGuard
  {
    match a {
      case CallConnect =>
      case CallDisconnect =>
      case NewSecrets =>
      case ConnStep(k, ok) => if k < |s.conns| { ConnectLeavesGuards(s, k, ok, i); }
      case DiscStep(j, ok) => if j < |s.discs| { DisconnectLeavesGuards(s, j, ok, i); }
      case SessionTask(k, kind, e) =>
      case LoseSession(_) =>
      case LoseConfig(_) =>
    }
  }

  predicate SameGuards(x: Session, y: Session) {
    x.shared.ip4Guard == y.shared.ip4Guard && x.shared.failGuard == y.shared.failGuard
  }

  lemma SetupLeavesGuards(s: State, k: nat, ok: bool, i: nat)
    requires k < |s.conns| && i < |s.conns|
    ensures |Setup(s, k, ok).conns| == |s.conns|
    ensures Setup(s, k, ok).conns[i].session == s.conns[i].session
  {}

  lemma BringupLeavesGuards(s: State, k: nat, ok: bool, i: nat)
    requires k < |s.conns| && i < |s.conns|
    ensures |Bringup(s, k, ok).conns| == |s.conns|
    ensures SameGuards(Bringup(s, k, ok).conns[i].session, s.conns[i].session)
  {
    match s.conns[k].pc {
      case Watch =>
      case Arm =>
      case _ =>
    }
  }

  lemma FlagGuardsLeaves(s: State, i: nat)
    requires i < |s.conns|
    ensures var t := FlagGuards(s); |t.conns| == |s.conns| && t.lock == s.lock && t.teardown == s.teardown
    ensures var c := FlagGuards(s).conns[i];
            c.pc == s.conns[i].pc && c.said == s.conns[i].said && SameGuards(c.session, s.conns[i].session)
    ensures FlagGuards(s).backend == s.backend
  {}

  lemma EndSessionLeaves(s: State, k: nat, ok: bool, i: nat)
    requires k < |s.conns| && i < |s.conns|
    ensures var t := EndSession(s, k, ok); |t.conns| == |s.conns| && t.lock == s.lock && t.teardown == s.teardown
    ensures var c := EndSession(s, k, ok).conns[i];
            c.pc == s.conns[i].pc && c.said == s.conns[i].said && SameGuards(c.session, s.conns[i].session)
    ensures EndSession(s, k, ok).backend.dialled == s.backend.dialled
  {}

  lemma CleanupLeavesGuards(s: State, k: nat, ok: bool, i: nat)
    requires k < |s.conns| && i < |s.conns|
    ensures |Cleanup(s, k, ok).conns| == |s.conns|
    ensures SameGuards(Cleanup(s, k, ok).conns[i].session, s.conns[i].session)
  {
    hide FlagGuards, EndSession;
    FlagGuardsLeaves(s, i);
    EndSessionLeaves(s, k, ok, i);
    match s.conns[k].pc {
      case Retire =>
      case HangUp1(_) =>
      case HangUp2(_) =>
      case _ => assert Cleanup(s, k, ok).conns[i].session == s.conns[i].session;
    }
  }

  lemma ConnectLeavesGuards(s: State, k: nat, ok: bool, i: nat)
    requires k < |s.conns| && i < |s.conns|
    ensures |ConnectStep(s, k, ok).conns| == |s.conns|
    ensures SameGuards(ConnectStep(s, k, ok).conns[i].session, s.conns[i].session)
  {
    hide Setup, Bringup, Cleanup;
    SetupLeavesGuards(s, k, ok, i);
    BringupLeavesGuards(s, k, ok, i);
    CleanupLeavesGuards(s, k, ok, i);
  }

  lemma DisconnectLeavesGuards(s: State, j: nat, ok: bool, i: nat)
    requires j < |s.discs| && i < |s.conns|
    ensures i < |DisconnectStep(s, j, ok).conns|
    ensures SameGuards(DisconnectStep(s, j, ok).conns[i].session, s.conns[i].session)
  {}

  // ---------- A Disconnect that comes in time ----------

  /** The flag was cleared for this Connect, and the check before session.Connect is still ahead. */
  predicate LastCheckAhead(pc: ConnPc) {
    pc.Prepare? || pc.EarlyCheck? || pc.Import? || pc.Tunnel? || pc.Stash? || pc.StashCheck? || pc.WaitReady?
    || pc.Watch? || pc.LastCheck?
  }

  /** On the way out without having reached session.Connect. */
  predicate BackingOut(pc: ConnPc) {
    pc.Unimport? || InCleanup(pc) || pc.Failed? || pc.SayStopped? || pc.SayFailure? || pc.Leave? || pc.Done?
  }

  /** The flag was cleared for this Connect, and the look at the flag on the error path is still ahead. */
  predicate ReportAhead(pc: ConnPc) {
    LastCheckAhead(pc) || pc.Unimport? || pc.Dial? || pc.Arm? || InCleanup(pc) || pc.Failed?
  }

  /** What one step leaves alone of a Connect that is not the one taking it. */
  predicate Undisturbed(s: State, t: State, i: nat)
    requires i < |s.conns|
  {
    && i < |t.conns| && t.conns[i].pc == s.conns[i].pc && t.conns[i].said == s.conns[i].said
    && (i in t.backend.dialled <==> i in s.backend.dialled)
    && (s.lock == ByConnect(i) ==> t.lock == s.lock && (s.teardown ==> t.teardown))
  }

  lemma SetupDisturbsNobody(s: State, k: nat, ok: bool, i: nat)
    requires k < |s.conns| && i < |s.conns| && k != i && (Holds(s.conns[k].pc) <==> s.lock == ByConnect(k))
    ensures Undisturbed(s, Setup(s, k, ok), i)
  {
    match s.conns[k].pc {
      case Queued =>
      case Clear =>
      case _ =>
    }
  }

  lemma BringupDisturbsNobody(s: State, k: nat, ok: bool, i: nat)
    requires k < |s.conns| && i < |s.conns| && k != i && (Holds(s.conns[k].pc) <==> s.lock == ByConnect(k))
    ensures Undisturbed(s, Bringup(s, k, ok), i)
  {}

  lemma CleanupDisturbsNobody(s: State, k: nat, ok: bool, i: nat)
    requires k < |s.conns| && i < |s.conns| && k != i && (Holds(s.conns[k].pc) <==> s.lock == ByConnect(k))
    ensures Undisturbed(s, Cleanup(s, k, ok), i)
  {
    hide FlagGuards, EndSession;
    FlagGuardsLeaves(s, i);
    EndSessionLeaves(s, k, ok, i);
    match s.conns[k].pc {
      case Retire =>
      case HangUp1(_) =>
      case HangUp2(_) =>
      case _ =>
    }
  }

  lemma ReportDisturbsNobody(s: State, k: nat, i: nat)
    requires k < |s.conns| && i < |s.conns| && k != i && (Holds(s.conns[k].pc) <==> s.lock == ByConnect(k))
    ensures Undisturbed(s, Report(s, k), i)
  {}

  lemma DisconnectDisturbsNobody(s: State, j: nat, ok: bool, i: nat)
    requires j < |s.discs| && i < |s.conns| && (DiscHolds(s.discs[j]) <==> s.lock == ByDisconnect(j))
    ensures Undisturbed(s, DisconnectStep(s, j, ok), i)
  {
    hide FlagGuards, EndSession;
    FlagGuardsLeaves(s, i);
    match s.discs[j] {
      case End1(p, _) => if Names(p, s) { EndSessionLeaves(s, p.value, ok, i); }
      case End2(p, _) => if Names(p, s) { EndSessionLeaves(s, p.value, ok, i); }
      case _ =>
    }
  }

  lemma OthersDisturbNobody(s: State, a: Action, i: nat)
    requires LockIsExclusive(s) && i < |s.conns| && !(a.ConnStep? && a.conn == i)
    ensures Undisturbed(s, Next(s, a), i)
  {
    hide Setup, Bringup, Cleanup, Report, DisconnectStep, TaskStep;
    match a {
      case ConnStep(k, ok) =>
        if k < |s.conns| {
          SetupDisturbsNobody(s, k, ok, i);
          BringupDisturbsNobody(s, k, ok, i);
          CleanupDisturbsNobody(s, k, ok, i);
          ReportDisturbsNobody(s, k, i);
        }
      case DiscStep(j, ok) =>
        if j < |s.discs| {
          DisconnectDisturbsNobody(s, j, ok, i);
        }
      case _ =>
    }
  }

  /** What a Connect has said and dialled by where it stands. */
  predicate HistoryFits(s: State, i: nat)
    requires i < |s.conns|
  {
    var pc := s.conns[i].pc;
    && (!pc.SayFailure? && !pc.Leave? && !pc.Done? ==> s.conns[i].said == [])
    && (InSetup(pc) || LastCheckAhead(pc) || pc.Dial? ==> i !in s.backend.dialled)
    && (pc.Arm? ==> i in s.backend.dialled)
  }

  predicate HistoriesFit(s: State) {
    && (forall i :: i in s.backend.dialled ==> i < |s.conns|)
    && (forall i :: 0 <= i < |s.conns| ==> HistoryFits(s, i))
  }

  /** session.Connect was not called, and will not be. */
  predicate NeverDials(s: State, i: nat) {
    && i < |s.conns| && i !in s.backend.dialled
    && (BackingOut(s.conns[i].pc) || (s.teardown && s.lock == ByConnect(i) && LastCheckAhead(s.conns[i].pc)))
  }

  /** The Connect told NetworkManager nothing, and will not. */
  predicate StaysSilent(s: State, i: nat) {
    && i < |s.conns| && s.conns[i].said == []
    && (s.conns[i].pc.Leave? || s.conns[i].pc.Done?
        || (s.teardown && s.lock == ByConnect(i) && ReportAhead(s.conns[i].pc)))
  }

  lemma OwnSetupHistory(s: State, i: nat, ok: bool)
    requires i < |s.conns| && InSetup(s.conns[i].pc)
    ensures HistoryFits(s, i) ==> HistoryFits(Setup(s, i, ok), i)
    ensures Setup(s, i, ok).backend.dialled == s.backend.dialled
  {}

  lemma OwnSetupDial(s: State, i: nat, ok: bool)
    requires i < |s.conns| && InSetup(s.conns[i].pc)
    ensures NeverDials(s, i) ==> NeverDials(Setup(s, i, ok), i)
  {}

  lemma OwnSetupSilence(s: State, i: nat, ok: bool)
    requires i < |s.conns| && InSetup(s.conns[i].pc)
    ensures StaysSilent(s, i) ==> StaysSilent(Setup(s, i, ok), i)
  {}

  lemma OwnBringupHistory(s: State, i: nat, ok: bool)
    requires i < |s.conns| && InBringup(s.conns[i].pc)
    ensures HistoryFits(s, i) ==> HistoryFits(Bringup(s, i, ok), i)
    ensures Bringup(s, i, ok).backend.dialled <= s.backend.dialled + {i}
  {}

  lemma OwnBringupDial(s: State, i: nat, ok: bool)
    requires i < |s.conns| && InBringup(s.conns[i].pc)
    ensures NeverDials(s, i) ==> NeverDials(Bringup(s, i, ok), i)
  {}

  lemma OwnBringupSilence(s: State, i: nat, ok: bool)
    requires i < |s.conns| && InBringup(s.conns[i].pc)
    ensures StaysSilent(s, i) ==> StaysSilent(Bringup(s, i, ok), i)
  {}

  lemma OwnCleanup(s: State, i: nat, ok: bool)
    requires i < |s.conns| && InCleanup(s.conns[i].pc)
    ensures HistoryFits(s, i) ==> HistoryFits(Cleanup(s, i, ok), i)
    ensures NeverDials(s, i) ==> NeverDials(Cleanup(s, i, ok), i)
    ensures StaysSilent(s, i) ==> StaysSilent(Cleanup(s, i, ok), i)
    ensures Cleanup(s, i, ok).backend.dialled == s.backend.dialled
  {
    hide FlagGuards, EndSession;
    FlagGuardsLeaves(s, i);
    EndSessionLeaves(s, i, ok, i);
  }

  lemma OwnReport(s: State, i: nat)
    requires i < |s.conns| && !InSetup(s.conns[i].pc) && !InBringup(s.conns[i].pc)
    ensures HistoryFits(s, i) ==> HistoryFits(Report(s, i), i)
    ensures NeverDials(s, i) ==> NeverDials(Report(s, i), i)
    ensures StaysSilent(s, i) ==> StaysSilent(Report(s, i), i)
    ensures Report(s, i).backend.dialled == s.backend.dialled
  {}

  lemma OwnStep(s: State, i: nat, ok: bool)
    requires i < |s.conns|
    ensures |ConnectStep(s, i, ok).conns| == |s.conns|
    ensures HistoryFits(s, i) ==> HistoryFits(ConnectStep(s, i, ok), i)
    ensures NeverDials(s, i) ==> NeverDials(ConnectStep(s, i, ok), i)
    ensures StaysSilent(s, i) ==> StaysSilent(ConnectStep(s, i, ok), i)
    ensures ConnectStep(s, i, ok).backend.dialled <= s.backend.dialled + {i}
  {
    hide Setup, Bringup, Cleanup, Report, HistoryFits, NeverDials, StaysSilent, InSetup, InBringup, InCleanup;
    ConnectLeavesGuards(s, i, ok, i);
    if InSetup(s.conns[i].pc) {
      OwnSetupHistory(s, i, ok);
      OwnSetupDial(s, i, ok);
      OwnSetupSilence(s, i, ok);
    } else if InBringup(s.conns[i].pc) {
      OwnBringupHistory(s, i, ok);
      OwnBringupDial(s, i, ok);
      OwnBringupSilence(s, i, ok);
    } else if InCleanup(s.conns[i].pc) {
      OwnCleanup(s, i, ok);
    } else {
      OwnReport(s, i);
    }
  }

  lemma StepsKeepPromises(s: State, a: Action, i: nat)
    requires LockIsExclusive(s) && i < |s.conns|
    ensures i < |Next(s, a).conns|
    ensures HistoryFits(s, i) ==> HistoryFits(Next(s, a), i)
    ensures NeverDials(s, i) ==> NeverDials(Next(s, a), i)
    ensures StaysSilent(s, i) ==> StaysSilent(Next(s, a), i)
  {
    if a.ConnStep? && a.conn == i {
      hide ConnectStep, HistoryFits, NeverDials, StaysSilent;
      OwnStep(s, i, a.ok);
    } else {
      hide Next, ReportAhead, LastCheckAhead, BackingOut;
      OthersDisturbNobody(s, a, i);
    }
  }

  lemma ConnsStay(s: State, a: Action)
    requires LockIsExclusive(s)
    ensures |s.conns| <= |Next(s, a).conns|
  {
    hide Next;
    if |s.conns| > 0 {
      StepsKeepPromises(s, a, |s.conns| - 1);
    }
  }

  lemma DialledAreKnown(s: State, a: Action)
    requires LockIsExclusive(s) && HistoriesFit(s)
    ensures forall i :: i in Next(s, a).backend.dialled ==> i < |Next(s, a).conns|
  {
    hide ConnectStep, DisconnectStep, HistoryFits, WithSession;
    match a {
      case ConnStep(k, ok) => if k < |s.conns| { OwnStep(s, k, ok); }
      case DiscStep(j, ok) => ConnsStay(s, a); DisconnectDialsNobody(s, j, ok);
      case _ => ConnsStay(s, a); TasksDialNobody(s, a);
    }
  }

  lemma DisconnectDialsNobody(s: State, j: nat, ok: bool)
    ensures Next(s, DiscStep(j, ok)).backend.dialled == s.backend.dialled
  {}

  lemma TasksDialNobody(s: State, a: Action)
    requires !a.ConnStep? && !a.DiscStep?
    ensures Next(s, a).backend.dialled == s.backend.dialled
  {}

  lemma HistoriesStay(s: State, a: Action)
    requires LockIsExclusive(s) && HistoriesFit(s)
    ensures HistoriesFit(Next(s, a))
  {
    hide Next, HistoryFits;
    DialledAreKnown(s, a);
    var t := Next(s, a);
    forall i | 0 <= i < |t.conns| ensures HistoryFits(t, i) {
      if i < |s.conns| {
        StepsKeepPromises(s, a, i);
      } else {
        NewcomerFits(s, a, i);
      }
    }
  }

  lemma NewcomerFits(s: State, a: Action, i: nat)
    requires LockIsExclusive(s) && HistoriesFit(s) && |s.conns| <= i < |Next(s, a).conns|
    ensures HistoryFits(Next(s, a), i)
  {
    hide ConnectStep, DisconnectStep;
    match a {
      case ConnStep(k, ok) => if k < |s.conns| { ConnectLeavesGuards(s, k, ok, k); }
      case DiscStep(j, ok) => if j < |s.discs| { DisconnectKeepsCount(s, j, ok); }
      case _ =>
    }
  }

  lemma DisconnectKeepsCount(s: State, j: nat, ok: bool)
    requires j < |s.discs|
    ensures |DisconnectStep(s, j, ok).conns| == |s.conns|
  {}

  lemma {:induction false} HistoriesFitAfter(run: seq<Action>)
    ensures HistoriesFit(After(START, run))
    decreases |run|
  {
    hide Next, HistoryFits;
    if run != [] {
      HistoriesFitAfter(run[..|run| - 1]);
      RunIsGood(run[..|run| - 1]);
      HistoriesStay(After(START, run[..|run| - 1]), run[|run| - 1]);
    }
  }

  lemma {:induction false} PromisesHold(s: State, run: seq<Action>, i: nat)
    requires Inv(s)
    ensures NeverDials(s, i) ==> NeverDials(After(s, run), i)
    ensures StaysSilent(s, i) ==> StaysSilent(After(s, run), i)
    decreases |run|
  {
    hide Next, NeverDials, StaysSilent, Inv;
    if run != [] && i < |s.conns| {
      var rest := run[..|run| - 1];
      PromisesHold(s, rest, i);
      RunsKeep(s, rest);
      ConnsStayAfter(s, rest);
      LockOf(After(s, rest));
      StepsKeepPromises(After(s, rest), run[|run| - 1], i);
    } else {
      NobodyPromises(s, i);
    }
  }

  lemma LockOf(s: State)
    requires Inv(s)
    ensures LockIsExclusive(s)
  {}

  lemma NobodyPromises(s: State, i: nat)
    ensures i >= |s.conns| ==> !NeverDials(s, i) && !StaysSilent(s, i)
  {}

  lemma {:induction false} ConnsStayAfter(s: State, run: seq<Action>)
    requires Inv(s)
    ensures |s.conns| <= |After(s, run).conns|
    decreases |run|
  {
    hide Next, Inv;
    if run != [] {
      ConnsStayAfter(s, run[..|run| - 1]);
      RunsKeep(s, run[..|run| - 1]);
      LockOf(After(s, run[..|run| - 1]));
      ConnsStay(After(s, run[..|run| - 1]), run[|run| - 1]);
    }
  }

  /**
    * A Disconnect stores its flag while Connect `i` is between its own
    * clear_teardown and its last check: whatever happens afterwards,
    * session.Connect is never called for the session of `i`, and `i` itself
    * reports neither Stopped nor Failure.
    */
  lemma FlagInTimeStopsConnect(before: seq<Action>, i: nat, j: nat, ok: bool, later: seq<Action>)
    requires var s := After(START, before);
      i < |s.conns| && LastCheckAhead(s.conns[i].pc) && j < |s.discs| && s.discs[j].Arrived?
    ensures var t := After(Next(After(START, before), DiscStep(j, ok)), later);
      i < |t.conns| && i !in t.backend.dialled && t.conns[i].said == []
  {
    hide After, RecordIsWhole, HolderFits, Accounted, AllSound;
    var s := After(START, before);
    RunIsGood(before);
    HistoriesFitAfter(before);
    assert HistoryFits(s, i);
    var t := Next(s, DiscStep(j, ok));
    assert NeverDials(t, i) && StaysSilent(t, i);
    NextKeeps(s, DiscStep(j, ok));
    PromisesHold(t, later, i);
  }

  /** A flag stored any time before the error path looks at it keeps the Connect itself silent. */
  lemma FlagSilencesConnect(before: seq<Action>, i: nat, j: nat, ok: bool, later: seq<Action>)
    requires var s := After(START, before);
      i < |s.conns| && ReportAhead(s.conns[i].pc) && j < |s.discs| && s.discs[j].Arrived?
    ensures var t := After(Next(After(START, before), DiscStep(j, ok)), later);
      i < |t.conns| && t.conns[i].said == []
  {
    hide After, RecordIsWhole, HolderFits, Accounted, AllSound;
    var s := After(START, before);
    RunIsGood(before);
    HistoriesFitAfter(before);
    assert HistoryFits(s, i);
    var t := Next(s, DiscStep(j, ok));
    assert StaysSilent(t, i);
    NextKeeps(s, DiscStep(j, ok));
    PromisesHold(t, later, i);
  }

  // ---------- The lock always comes back ----------

  /** How many steps of its own a Connect may still take before it has returned. */
  function StepsLeft(pc: ConnPc): nat {
    match pc
    case Queued => 21
    case Gate => 20
    case Clear => 19
    case Prepare => 18
    case EarlyCheck => 17
    case Import => 16
    case Tunnel => 15
    case Unimport => 5
    case Stash => 14
    case StashCheck => 13
    case WaitReady => 12
    case Watch => 11
    case LastCheck => 10
    case Dial => 9
    case Arm => 8
    case Retire => 8
    case HangUp1(_) => 7
    case HangUp2(_) => 6
    case Reclaim(_) => 5
    case Failed => 4
    case SayStopped => 3
    case SayFailure => 2
    case Leave => 1
    case Done => 0
  }

  lemma OwnStepsRunOut(s: State, i: nat, ok: bool)
    requires i < |s.conns| && Holds(s.conns[i].pc)
    ensures i < |ConnectStep(s, i, ok).conns|
    ensures StepsLeft(ConnectStep(s, i, ok).conns[i].pc) < StepsLeft(s.conns[i].pc)
  {
    hide Setup, Bringup, Cleanup, Report, StepsLeft, InSetup, InBringup, InCleanup;
    ConnectLeavesGuards(s, i, ok, i);
    if InSetup(s.conns[i].pc) {
      SetupRunsOut(s, i, ok);
    } else if InBringup(s.conns[i].pc) {
      BringupRunsOut(s, i, ok);
    } else if InCleanup(s.conns[i].pc) {
      CleanupRunsOut(s, i, ok);
    } else {
      ReportRunsOut(s, i);
    }
  }

  lemma SetupRunsOut(s: State, i: nat, ok: bool)
    requires i < |s.conns| && Holds(s.conns[i].pc) && InSetup(s.conns[i].pc)
    ensures |Setup(s, i, ok).conns| == |s.conns|
    ensures StepsLeft(Setup(s, i, ok).conns[i].pc) < StepsLeft(s.conns[i].pc)
  {}

  lemma BringupRunsOut(s: State, i: nat, ok: bool)
    requires i < |s.conns| && InBringup(s.conns[i].pc)
    ensures |Bringup(s, i, ok).conns| == |s.conns|
    ensures StepsLeft(Bringup(s, i, ok).conns[i].pc) < StepsLeft(s.conns[i].pc)
  {}

  lemma CleanupRunsOut(s: State, i: nat, ok: bool)
    requires i < |s.conns| && InCleanup(s.conns[i].pc)
    ensures |Cleanup(s, i, ok).conns| == |s.conns|
    ensures StepsLeft(Cleanup(s, i, ok).conns[i].pc) < StepsLeft(s.conns[i].pc)
  {
    hide FlagGuards, EndSession;
    FlagGuardsLeaves(s, i);
    EndSessionLeaves(s, i, ok, i);
  }

  lemma ReportRunsOut(s: State, i: nat)
    requires i < |s.conns| && Holds(s.conns[i].pc)
    requires !InSetup(s.conns[i].pc) && !InBringup(s.conns[i].pc) && !InCleanup(s.conns[i].pc)
    ensures |Report(s, i).conns| == |s.conns|
    ensures StepsLeft(Report(s, i).conns[i].pc) < StepsLeft(s.conns[i].pc)
  {}

  /** How many steps of Connect `i` a run holds. */
  function StepsOf(run: seq<Action>, i: nat): nat
    decreases |run|
  {
    if run == [] then 0
    else StepsOf(run[..|run| - 1], i) + if run[|run| - 1].ConnStep? && run[|run| - 1].conn == i then 1 else 0
  }

  /**
    * A Connect that holds the lock returns after at most twenty steps of its own,
    * whatever the backend answers and whatever runs in between.
    */
  lemma {:induction false} ConnectReturns(s: State, run: seq<Action>, i: nat)
    requires Inv(s) && i < |s.conns| && Holds(s.conns[i].pc)
    ensures i < |After(s, run).conns|
    ensures StepsLeft(After(s, run).conns[i].pc) + StepsOf(run, i) <= 20 || After(s, run).conns[i].pc.Done?
    decreases |run|
  {
    hide Next, Inv, StepsLeft;
    if run == [] {
      HoldersAreBounded(s.conns[i].pc);
    } else {
      var rest := run[..|run| - 1];
      var a := run[|run| - 1];
      ConnectReturns(s, rest, i);
      RunsKeep(s, rest);
      LockOf(After(s, rest));
      HoldersAreBounded(After(s, rest).conns[i].pc);
      ReturnStep(After(s, rest), a, i);
    }
  }

  lemma HoldersAreBounded(pc: ConnPc)
    ensures StepsLeft(pc) <= 20 <==> !pc.Queued?
  {}

  lemma ReturnStep(s: State, a: Action, i: nat)
    requires LockIsExclusive(s) && i < |s.conns|
    ensures i < |Next(s, a).conns|
    ensures s.conns[i].pc.Done? ==> Next(s, a).conns[i].pc.Done?
    ensures !s.conns[i].pc.Queued? && !s.conns[i].pc.Done? && a.ConnStep? && a.conn == i ==>
              StepsLeft(Next(s, a).conns[i].pc) < StepsLeft(s.conns[i].pc)
    ensures !(a.ConnStep? && a.conn == i) ==> Next(s, a).conns[i].pc == s.conns[i].pc
  {
    hide StepsLeft;
    if a.ConnStep? && a.conn == i {
      if Holds(s.conns[i].pc) {
        hide ConnectStep;
        OwnStepsRunOut(s, i, a.ok);
      }
    } else {
      hide Next;
      OthersDisturbNobody(s, a, i);
    }
  }

  /** How many steps of its own a Disconnect may still take before it has returned. */
  function EndStepsLeft(pc: DiscPc): nat {
    match pc
    case Arrived => 9
    case Parked => 8
    case Take => 7
    case Abort(_, _, _) => 6
    case End1(_, _) => 5
    case End2(_, _) => 4
    case Drop(_) => 3
    case TellStopped => 2
    case Exit => 1
    case Over => 0
  }

  function EndStepsOf(run: seq<Action>, j: nat): nat
    decreases |run|
  {
    if run == [] then 0
    else EndStepsOf(run[..|run| - 1], j) + if run[|run| - 1].DiscStep? && run[|run| - 1].disc == j then 1 else 0
  }

  lemma OwnEndStepsRunOut(s: State, j: nat, ok: bool)
    requires j < |s.discs| && DiscHolds(s.discs[j])
    ensures j < |DisconnectStep(s, j, ok).discs|
    ensures EndStepsLeft(DisconnectStep(s, j, ok).discs[j]) < EndStepsLeft(s.discs[j])
  {
    hide FlagGuards, EndSession;
    FlagGuardsLeaveDiscs(s);
    match s.discs[j] {
      case End1(p, _) => if Names(p, s) { EndSessionLeavesDiscs(s, p.value, ok); }
      case End2(p, _) => if Names(p, s) { EndSessionLeavesDiscs(s, p.value, ok); }
      case _ =>
    }
  }

  lemma FlagGuardsLeaveDiscs(s: State)
    ensures FlagGuards(s).discs == s.discs
  {}

  lemma EndSessionLeavesDiscs(s: State, k: nat, ok: bool)
    requires k < |s.conns|
    ensures EndSession(s, k, ok).discs == s.discs
  {}

  lemma ConnectLeavesDiscs(s: State, k: nat, ok: bool)
    requires k < |s.conns|
    ensures ConnectStep(s, k, ok).discs == s.discs
  {
    hide Setup, Bringup, Cleanup, Report, InSetup, InBringup, InCleanup;
    if InSetup(s.conns[k].pc) {
      SetupMoves(s, k, ok);
    } else if InBringup(s.conns[k].pc) {
      BringupMoves(s, k, ok);
    } else if InCleanup(s.conns[k].pc) {
      CleanupMoves(s, k, ok);
    } else {
      ReportMoves(s, k);
    }
  }

  lemma OthersLeaveDisc(s: State, a: Action, j: nat)
    requires j < |s.discs| && !(a.DiscStep? && a.disc == j)
    ensures j < |Next(s, a).discs| && Next(s, a).discs[j] == s.discs[j]
  {
    hide ConnectStep, DisconnectStep, TaskStep;
    match a {
      case ConnStep(k, ok) => if k < |s.conns| { ConnectLeavesDiscs(s, k, ok); }
      case DiscStep(k, ok) => if k < |s.discs| { DisconnectMovesItself(s, k, ok); }
      case _ =>
    }
  }

  lemma DisconnectMovesItself(s: State, k: nat, ok: bool)
    requires k < |s.discs|
    ensures DiscMoves(s, DisconnectStep(s, k, ok), k)
  {
    hide Entry, TearDown, DiscMoves;
    if InEntry(s.discs[k]) {
      EntryMoves(s, k);
    } else {
      TearDownMoves(s, k, ok);
    }
  }

  /** A Disconnect that holds the lock returns after at most seven steps of its own, too. */
  lemma {:induction false} DisconnectReturns(s: State, run: seq<Action>, j: nat)
    requires j < |s.discs| && DiscHolds(s.discs[j])
    ensures j < |After(s, run).discs|
    ensures EndStepsLeft(After(s, run).discs[j]) + EndStepsOf(run, j) <= 7 || After(s, run).discs[j].Over?
    decreases |run|
  {
    hide Next, EndStepsLeft;
    if run == [] {
      EnteredIsBounded(s.discs[j]);
    } else {
      var rest, a := run[..|run| - 1], run[|run| - 1];
      DisconnectReturns(s, rest, j);
      var t := After(s, rest);
      EnteredIsBounded(t.discs[j]);
      if a.DiscStep? && a.disc == j {
        EndStep(t, j, a.ok);
      } else {
        OthersLeaveDisc(t, a, j);
      }
    }
  }

  lemma EnteredIsBounded(pc: DiscPc)
    ensures EndStepsLeft(pc) <= 7 <==> !pc.Arrived? && !pc.Parked?
  {}

  lemma EndStep(s: State, j: nat, ok: bool)
    requires j < |s.discs| && !s.discs[j].Arrived? && !s.discs[j].Parked?
    ensures var t := Next(s, DiscStep(j, ok));
      && j < |t.discs|
      && if s.discs[j].Over? then t.discs[j].Over? else EndStepsLeft(t.discs[j]) < EndStepsLeft(s.discs[j])
  {
    if DiscHolds(s.discs[j]) {
      OwnEndStepsRunOut(s, j, ok);
    }
    hide EndStepsLeft;
  }
}
