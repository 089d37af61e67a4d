/**
  * What the two earlier checks of a Connect buy: a teardown flag seen by the
  * first one means that nothing is created at the backend, one seen by the
  * second that no background task is ever started.
  */
module Checkpoints {
  import opened Text
  import opened Sessions
  import opened Protocol
  import opened Runs

  predicate Unwatched(spawned: set<Handle>, i: nat) { forall h :: h in spawned ==> h.session != i }

  /** Neither config nor session nor task of Connect `i` exists or existed. */
  predicate Untouched(b: Backend, i: nat) { i !in b.configs && i !in b.live && Unwatched(b.spawned, i) }

  predicate BeforeImport(pc: ConnPc) {
    pc.Queued? || pc.Gate? || pc.Clear? || pc.Prepare? || pc.EarlyCheck? || pc.Import?
  }

  /** On the error path with nothing to clean up. */
  predicate Reporting(pc: ConnPc) { pc.Failed? || pc.SayStopped? || pc.SayFailure? || pc.Leave? || pc.Done? }

  /** What a Connect has created by where it stands; a Connect not yet called has created nothing. */
  predicate TouchFits(s: State, i: nat) {
    && (i < |s.conns| ==> (BeforeImport(s.conns[i].pc) ==> Untouched(s.backend, i))
                          && (BeforeWatch(s.conns[i].pc) ==> Unwatched(s.backend.spawned, i)))
    && (i >= |s.conns| ==> Untouched(s.backend, i))
  }

  predicate Warned(s: State, i: nat) { s.teardown && s.lock == ByConnect(i) }

  predicate CreatesNothing(s: State, i: nat) {
    && i < |s.conns| && Untouched(s.backend, i)
    && (Reporting(s.conns[i].pc) || (Warned(s, i) && (s.conns[i].pc.Prepare? || s.conns[i].pc.EarlyCheck?)))
  }

  /** The second check is still ahead. */
  predicate SecondCheckAhead(pc: ConnPc) {
    pc.Prepare? || pc.EarlyCheck? || pc.Import? || pc.Tunnel? || pc.Stash? || pc.StashCheck?
  }

  predicate NeverWatches(s: State, i: nat) {
    && i < |s.conns| && Unwatched(s.backend.spawned, i)
    && (BackingOut(s.conns[i].pc) || (Warned(s, i) && SecondCheckAhead(s.conns[i].pc)))
  }

  // ----- One step -----

  lemma OwnSetupTouches(s: State, i: nat, ok: bool)
    requires i < |s.conns| && InSetup(s.conns[i].pc)
    ensures TouchFits(s, i) ==> TouchFits(Setup(s, i, ok), i)
  {
    hide Unwatched;
  }

  lemma OwnSetupCreates(s: State, i: nat, ok: bool)
    requires i < |s.conns| && InSetup(s.conns[i].pc)
    ensures CreatesNothing(s, i) ==> CreatesNothing(Setup(s, i, ok), i)
  {
    hide Unwatched;
  }

  lemma OwnSetupWatches(s: State, i: nat, ok: bool)
    requires i < |s.conns| && InSetup(s.conns[i].pc)
    ensures NeverWatches(s, i) ==> NeverWatches(Setup(s, i, ok), i)
  {}

  lemma OwnBringupTouches(s: State, i: nat, ok: bool)
    requires i < |s.conns| && InBringup(s.conns[i].pc)
    ensures TouchFits(s, i) ==> TouchFits(Bringup(s, i, ok), i)
  {
    hide Unwatched;
  }

  lemma OwnBringupWatches(s: State, i: nat, ok: bool)
    requires i < |s.conns| && InBringup(s.conns[i].pc)
    ensures NeverWatches(s, i) ==> NeverWatches(Bringup(s, i, ok), i)
  {
    hide Unwatched;
  }

  lemma BackoutSpawnsNothing(s: State, i: nat, ok: bool)
    requires i < |s.conns|
    ensures Cleanup(s, i, ok).backend.spawned == s.backend.spawned
    ensures Report(s, i).backend == s.backend
  {
    hide FlagGuards;
    FlagGuardsLeaves(s, i);
  }

  lemma OwnCleanupTouches(s: State, i: nat, ok: bool)
    requires i < |s.conns| && InCleanup(s.conns[i].pc)
    ensures TouchFits(s, i) ==> TouchFits(Cleanup(s, i, ok), i)
    ensures NeverWatches(s, i) ==> NeverWatches(Cleanup(s, i, ok), i)
  {
    BackoutSpawnsNothing(s, i, ok);
    OwnCleanup(s, i, ok);
    CleanupLeavesGuards(s, i, ok, i);
    CleanupRunsOn(s, i, ok);
    hide Cleanup;
  }

  lemma CleanupRunsOn(s: State, i: nat, ok: bool)
    requires i < |s.conns| && InCleanup(s.conns[i].pc)
    ensures i < |Cleanup(s, i, ok).conns|
    ensures BackingOut(Cleanup(s, i, ok).conns[i].pc)
  {
    hide FlagGuards, EndSession;
    FlagGuardsLeaves(s, i);
    EndSessionLeaves(s, i, ok, i);
  }

  lemma OwnReportTouches(s: State, i: nat)
    requires i < |s.conns| && !InSetup(s.conns[i].pc) && !InBringup(s.conns[i].pc) && !InCleanup(s.conns[i].pc)
    ensures TouchFits(s, i) ==> TouchFits(Report(s, i), i)
    ensures CreatesNothing(s, i) ==> CreatesNothing(Report(s, i), i)
    ensures NeverWatches(s, i) ==> NeverWatches(Report(s, i), i)
  {
    BackoutSpawnsNothing(s, i, true);
  }

  lemma OwnTouches(s: State, i: nat, ok: bool)
    requires i < |s.conns|
    ensures TouchFits(s, i) ==> TouchFits(ConnectStep(s, i, ok), i)
    ensures CreatesNothing(s, i) ==> CreatesNothing(ConnectStep(s, i, ok), i)
    ensures NeverWatches(s, i) ==> NeverWatches(ConnectStep(s, i, ok), i)
  {
    hide Setup, Bringup, Cleanup, Report, TouchFits, NeverWatches;
    if InSetup(s.conns[i].pc) {
      OwnSetupTouches(s, i, ok);
      OwnSetupCreates(s, i, ok);
      OwnSetupWatches(s, i, ok);
    } else if InBringup(s.conns[i].pc) {
      OwnBringupTouches(s, i, ok);
      OwnBringupWatches(s, i, ok);
    } else if InCleanup(s.conns[i].pc) {
      OwnCleanupTouches(s, i, ok);
    } else {
      OwnReportTouches(s, i);
    }
  }

  /** Steps of others neither create nor start anything in the name of `i`. */
  predicate Aloof(s: State, t: State, i: nat) {
    && (i !in s.backend.configs ==> i !in t.backend.configs)
    && (i !in s.backend.live ==> i !in t.backend.live)
    && (Unwatched(s.backend.spawned, i) ==> Unwatched(t.backend.spawned, i))
  }

  lemma SetupIsAloof(s: State, k: nat, ok: bool, i: nat)
    requires k < |s.conns| && k != i
    ensures Aloof(s, Setup(s, k, ok), i)
  {
    hide Unwatched;
  }

  lemma BringupIsAloof(s: State, k: nat, ok: bool, i: nat)
    requires k < |s.conns| && k != i
    ensures Aloof(s, Bringup(s, k, ok), i)
  {}

  lemma CleanupIsAloof(s: State, k: nat, ok: bool, i: nat)
    requires k < |s.conns| && k != i
    ensures Aloof(s, Cleanup(s, k, ok), i)
  {
    hide Unwatched, RequestDisconnect, HangUp;
  }

  lemma DisconnectIsAloof(s: State, j: nat, ok: bool, i: nat)
    requires j < |s.discs|
    ensures Aloof(s, DisconnectStep(s, j, ok), i)
  {
    hide Unwatched, RequestDisconnect, HangUp;
  }

  lemma OthersAreAloof(s: State, a: Action, i: nat)
    requires !(a.ConnStep? && a.conn == i)
    ensures Aloof(s, Next(s, a), i)
  {
    hide Setup, Bringup, Cleanup, DisconnectStep, Unwatched, TaskStep;
    match a {
      case ConnStep(k, ok) =>
        if k < |s.conns| {
          SetupIsAloof(s, k, ok, i);
          BringupIsAloof(s, k, ok, i);
          CleanupIsAloof(s, k, ok, i);
        }
      case DiscStep(j, ok) =>
        if j < |s.discs| {
          DisconnectIsAloof(s, j, ok, i);
        }
      case _ =>
    }
  }

  lemma NewcomerWaits(s: State, a: Action, i: nat)
    requires |s.conns| <= i < |Next(s, a).conns|
    ensures Next(s, a).conns[i].pc.Queued?
  {
    hide ConnectStep, DisconnectStep;
    match a {
      case ConnStep(k, ok) => if k < |s.conns| { ConnectLeavesGuards(s, k, ok, k); }
      case DiscStep(j, ok) => if j < |s.discs| { DisconnectKeepsCount(s, j, ok); }
      case _ =>
    }
  }

  lemma AloofKeeps(s: State, t: State, i: nat)
    requires i < |s.conns| && Aloof(s, t, i) && Undisturbed(s, t, i)
    ensures TouchFits(s, i) ==> TouchFits(t, i)
    ensures CreatesNothing(s, i) ==> CreatesNothing(t, i)
    ensures NeverWatches(s, i) ==> NeverWatches(t, i)
  {
    hide Unwatched, BeforeImport, BeforeWatch, Reporting, BackingOut, SecondCheckAhead;
  }

  lemma StepsKeepFootprints(s: State, a: Action, i: nat)
    requires LockIsExclusive(s)
    ensures TouchFits(s, i) ==> TouchFits(Next(s, a), i)
    ensures CreatesNothing(s, i) ==> CreatesNothing(Next(s, a), i)
    ensures NeverWatches(s, i) ==> NeverWatches(Next(s, a), i)
  {
    if a.ConnStep? && a.conn == i {
      hide ConnectStep, TouchFits, CreatesNothing, NeverWatches;
      if i < |s.conns| {
        OwnTouches(s, i, a.ok);
      } else {
        NotThere(s, i);
      }
    } else {
      hide Next;
      OthersAreAloof(s, a, i);
      if i < |s.conns| {
        hide TouchFits, CreatesNothing, NeverWatches;
        OthersDisturbNobody(s, a, i);
        AloofKeeps(s, Next(s, a), i);
      } else if i < |Next(s, a).conns| {
        hide Unwatched;
        NewcomerWaits(s, a, i);
      }
    }
  }

  lemma NotThere(s: State, i: nat)
    requires i >= |s.conns|
    ensures !CreatesNothing(s, i) && !NeverWatches(s, i)
  {}

  // ----- Whole runs -----

  lemma {:induction false} TouchFitsAfter(run: seq<Action>, i: nat)
    ensures TouchFits(After(START, run), i)
    decreases |run|
  {
    hide Next, TouchFits;
    if run == [] {
      NothingAtStart(i);
    } else {
      TouchFitsAfter(run[..|run| - 1], i);
      RunIsGood(run[..|run| - 1]);
      StepsKeepFootprints(After(START, run[..|run| - 1]), run[|run| - 1], i);
    }
  }

  lemma NothingAtStart(i: nat)
    ensures TouchFits(START, i)
  {}

  lemma {:induction false} FootprintsHold(s: State, run: seq<Action>, i: nat)
    requires Inv(s)
    ensures CreatesNothing(s, i) ==> CreatesNothing(After(s, run), i)
    ensures NeverWatches(s, i) ==> NeverWatches(After(s, run), i)
    decreases |run|
  {
    hide Next, CreatesNothing, NeverWatches, Inv;
    if run != [] {
      FootprintsHold(s, run[..|run| - 1], i);
      RunsKeep(s, run[..|run| - 1]);
      LockOf(After(s, run[..|run| - 1]));
      StepsKeepFootprints(After(s, run[..|run| - 1]), run[|run| - 1], i);
    }
  }

  /**
    * A flag stored between clear_teardown and the first check: nothing is ever
    * imported, no session is created and no task is started for this Connect.
    */
  lemma FlagBeforeImportCreatesNothing(before: seq<Action>, i: nat, j: nat, ok: bool, later: seq<Action>)
    requires var s := After(START, before);
      i < |s.conns| && (s.conns[i].pc.Prepare? || s.conns[i].pc.EarlyCheck?) && j < |s.discs| && s.discs[j].Arrived?
    ensures Untouched(After(Next(After(START, before), DiscStep(j, ok)), later).backend, i)
  {
    hide After, RecordIsWhole, HolderFits, Accounted, AllSound, Unwatched;
    var s := After(START, before);
    RunIsGood(before);
    TouchFitsAfter(before, i);
    var t := Next(s, DiscStep(j, ok));
    assert CreatesNothing(t, i);
    NextKeeps(s, DiscStep(j, ok));
    FootprintsHold(t, later, i);
  }

  /** A flag stored before the second check: no background task is ever started for this Connect. */
  lemma FlagBeforeWatchStartsNoTask(before: seq<Action>, i: nat, j: nat, ok: bool, later: seq<Action>)
    requires var s := After(START, before);
      i < |s.conns| && SecondCheckAhead(s.conns[i].pc) && j < |s.discs| && s.discs[j].Arrived?
    ensures var b := After(Next(After(START, before), DiscStep(j, ok)), later).backend;
      forall h :: h in b.spawned ==> h.session != i
  {
    hide After, RecordIsWhole, HolderFits, Accounted, AllSound;
    var s := After(START, before);
    RunIsGood(before);
    TouchFitsAfter(before, i);
    var t := Next(s, DiscStep(j, ok));
    assert NeverWatches(t, i);
    NextKeeps(s, DiscStep(j, ok));
    FootprintsHold(t, later, i);
  }
}
