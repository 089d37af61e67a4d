/**
  * The window in which a Disconnect's flag counts, and which Failures it cannot
  * hold back: exact conditions over every reachable state.
  */
module Window {
  import opened Text
  import opened Sessions
  import opened Protocol
  import opened Runs

  lemma {:induction false} AfterFirst(s: State, a: Action, rest: seq<Action>)
    ensures After(s, [a] + rest) == After(Next(s, a), rest)
    decreases |rest|
  {
    hide Next;
    if rest == [] {
      assert [a] + rest == [a] && [a][..0] == [];
    } else {
      AfterFirst(s, a, rest[..|rest| - 1]);
      assert ([a] + rest)[..|rest|] == [a] + rest[..|rest| - 1];
    }
  }

  lemma AfterOne(s: State, a: Action)
    ensures After(s, [a]) == Next(s, a)
  {
    hide Next;
    assert [a][..0] == [];
  }

  // ----- A Connect that is granted everything -----

  predicate OnItsWay(s: State, i: nat) {
    && i < |s.conns| && !s.teardown
    && (LastCheckAhead(s.conns[i].pc) || s.conns[i].pc.Dial? || s.conns[i].pc.Arm?)
  }

  function SessionNext(pc: ConnPc, x: Session): Session {
    if pc.Watch? then SpawnWatchers(x) else if pc.Arm? then SpawnPoller(x) else x
  }

  lemma GrantedStep(s: State, i: nat)
    requires OnItsWay(s, i)
    ensures var t := Next(s, ConnStep(i, true));
      && |t.conns| == |s.conns| && t.lock == s.lock && t.discs == s.discs
      && (if s.conns[i].pc.Arm? then t.conns[i].pc.Leave? else OnItsWay(t, i))
      && StepsLeft(t.conns[i].pc) < StepsLeft(s.conns[i].pc)
      && (s.conns[i].pc.Dial? ==> i in t.backend.dialled && t.conns[i].pc.Arm?)
      && (s.conns[i].pc.LastCheck? ==> t.conns[i].pc.Dial?)
  {
    match s.conns[i].pc {
      case Prepare =>
      case EarlyCheck =>
      case Import =>
      case Tunnel =>
      case Stash =>
      case StashCheck =>
      case WaitReady =>
      case Watch =>
      case LastCheck =>
      case Dial =>
      case Arm =>
      case _ =>
    }
  }

  /** Past clear_teardown and with no flag set, a Connect can go straight to session.Connect. */
  lemma {:induction false} DialsOnward(s: State, i: nat) returns (run: seq<Action>)
    requires OnItsWay(s, i) && !s.conns[i].pc.Arm?
    ensures i in After(s, run).backend.dialled
    decreases StepsLeft(s.conns[i].pc)
  {
    var a := ConnStep(i, true);
    var t := Next(s, a);
    GrantedStep(s, i);
    hide Next;
    if s.conns[i].pc.Dial? {
      run := [a];
      AfterOne(s, a);
    } else {
      GrantedIsNotArm(s, i);
      var rest := DialsOnward(t, i);
      run := [a] + rest;
      AfterFirst(s, a, rest);
    }
  }

  lemma GrantedIsNotArm(s: State, i: nat)
    requires OnItsWay(s, i) && LastCheckAhead(s.conns[i].pc)
    ensures i < |Next(s, ConnStep(i, true)).conns| && !Next(s, ConnStep(i, true)).conns[i].pc.Arm?
  {}

  // ----- Where the flag is too early or too late -----

  /** The places at which a flag stored now cannot keep Connect `i` from calling session.Connect. */
  predicate FlagMissesDial(s: State, i: nat)
    requires i < |s.conns|
  {
    var pc := s.conns[i].pc;
    pc.Clear? || pc.Dial? || (pc.Gate? && s.record.path.None?)
  }

  lemma ClearsTheFlag(s: State, i: nat)
    requires i < |s.conns| && s.conns[i].pc.Clear?
    ensures OnItsWay(Next(s, ConnStep(i, true)), i) && Next(s, ConnStep(i, true)).conns[i].pc.Prepare?
  {}

  lemma PassesTheGate(s: State, i: nat)
    requires i < |s.conns| && s.conns[i].pc.Gate? && s.record.path.None?
    ensures i < |Next(s, ConnStep(i, true)).conns| && Next(s, ConnStep(i, true)).conns[i].pc.Clear?
  {}

  lemma MissedFlagLetsDial(s: State, i: nat) returns (run: seq<Action>)
    requires i < |s.conns| && FlagMissesDial(s, i)
    ensures i in After(s, run).backend.dialled
    decreases StepsLeft(s.conns[i].pc)
  {
    var a := ConnStep(i, true);
    if s.conns[i].pc.Dial? {
      run := [a];
      AfterOne(s, a);
    } else if s.conns[i].pc.Clear? {
      ClearsTheFlag(s, i);
      hide Next;
      var rest := DialsOnward(Next(s, a), i);
      run := [a] + rest;
      AfterFirst(s, a, rest);
    } else {
      PassesTheGate(s, i);
      hide Next;
      var rest := MissedFlagLetsDial(Next(s, a), i);
      run := [a] + rest;
      AfterFirst(s, a, rest);
    }
  }

  /** At the gate of a session that is already there: the Connect will be refused. */
  predicate WillBeRefused(s: State, i: nat) {
    && i < |s.conns| && i !in s.backend.dialled
    && (BackingOut(s.conns[i].pc) || (s.conns[i].pc.Gate? && s.lock == ByConnect(i) && s.record.path.Some?))
  }

  lemma HeldRecordStays(s: State, a: Action, i: nat)
    requires LockIsExclusive(s) && s.lock == ByConnect(i) && !(a.ConnStep? && a.conn == i)
    ensures Next(s, a).record.path == s.record.path
  {
    match a {
      case ConnStep(k, ok) => if k < |s.conns| { WaitingConnectStays(s, k, ok); }
      case DiscStep(j, ok) => if j < |s.discs| { WaitingDisconnectStays(s, j, ok); }
      case _ =>
    }
  }

  lemma WaitingConnectStays(s: State, k: nat, ok: bool)
    requires k < |s.conns| && !Holds(s.conns[k].pc) && !s.lock.Free?
    ensures ConnectStep(s, k, ok).record == s.record
  {}

  lemma WaitingDisconnectStays(s: State, j: nat, ok: bool)
    requires j < |s.discs| && !DiscHolds(s.discs[j])
    ensures DisconnectStep(s, j, ok).record == s.record
  {}

  lemma RefusedStep(s: State, i: nat, ok: bool)
    requires WillBeRefused(s, i)
    ensures WillBeRefused(ConnectStep(s, i, ok), i)
  {
    hide Setup, Cleanup, Report;
    if s.conns[i].pc.Gate? {
      GateRefuses(s, i, ok);
    } else {
      assert NeverDials(s, i);
      OwnStep(s, i, ok);
      BackingOutStays(s, i, ok);
    }
  }

  lemma GateRefuses(s: State, i: nat, ok: bool)
    requires i < |s.conns| && s.conns[i].pc.Gate? && s.record.path.Some?
    ensures var t := ConnectStep(s, i, ok);
      |t.conns| == |s.conns| && t.conns[i].pc.Failed? && t.backend == s.backend && t.teardown == s.teardown
      && t.lock == s.lock && t.conns[i].said == s.conns[i].said
  {}

  lemma BackingOutStays(s: State, i: nat, ok: bool)
    requires i < |s.conns| && BackingOut(s.conns[i].pc)
    ensures i < |ConnectStep(s, i, ok).conns| && BackingOut(ConnectStep(s, i, ok).conns[i].pc)
  {
    hide FlagGuards, EndSession;
    FlagGuardsLeaves(s, i);
    EndSessionLeaves(s, i, ok, i);
  }

  lemma RefusalStays(s: State, a: Action, i: nat)
    requires LockIsExclusive(s) && WillBeRefused(s, i)
    ensures WillBeRefused(Next(s, a), i)
  {
    if a.ConnStep? && a.conn == i {
      RefusedStep(s, i, a.ok);
    } else {
      OthersDisturbNobody(s, a, i);
      if s.lock == ByConnect(i) {
        HeldRecordStays(s, a, i);
      }
      hide Next, BackingOut;
    }
  }

  lemma {:induction false} RefusedNeverDials(s: State, run: seq<Action>, i: nat)
    requires Inv(s) && WillBeRefused(s, i)
    ensures WillBeRefused(After(s, run), i)
    decreases |run|
  {
    hide Next, WillBeRefused, Inv;
    if run != [] {
      var rest := run[..|run| - 1];
      RefusedNeverDials(s, rest, i);
      RunsKeep(s, rest);
      LockOf(After(s, rest));
      RefusalStays(After(s, rest), run[|run| - 1], i);
    }
  }

  ghost predicate NoRunDials(s: State, i: nat) {
    forall later: seq<Action> :: i !in After(s, later).backend.dialled
  }

  /**
    * A Disconnect stores its flag while Connect `i` holds the lock and has not
    * called session.Connect: the store keeps it from ever doing so if and only if
    * the Connect does not stand at clear_teardown, at the open gate in front of
    * it, or already at the call.
    */
  lemma FlagWindowIsExact(before: seq<Action>, i: nat, j: nat, ok: bool)
    requires var s := After(START, before);
      i < |s.conns| && s.lock == ByConnect(i) && i !in s.backend.dialled && j < |s.discs| && s.discs[j].Arrived?
    ensures var s := After(START, before);
      NoRunDials(Next(s, DiscStep(j, ok)), i) <==> !FlagMissesDial(s, i)
  {
    hide After, RecordIsWhole, HolderFits, Accounted, AllSound;
    var s := After(START, before);
    RunIsGood(before);
    HistoriesFitAfter(before);
    assert HistoryFits(s, i);
    var t := Next(s, DiscStep(j, ok));
    NextKeeps(s, DiscStep(j, ok));
    if FlagMissesDial(s, i) {
      var run := MissedFlagLetsDial(t, i);
      assert i in After(t, run).backend.dialled;
    } else if s.conns[i].pc.Gate? || BackingOut(s.conns[i].pc) {
      assert WillBeRefused(t, i);
      forall later: seq<Action> | true ensures i !in After(t, later).backend.dialled {
        RefusedNeverDials(t, later, i);
      }
    } else {
      assert NeverDials(t, i);
      forall later: seq<Action> | true ensures i !in After(t, later).backend.dialled {
        PromisesHold(t, later, i);
      }
    }
  }

  // ----- The same for what the Connect itself reports -----

  predicate SaidNothing(s: State, i: nat) { i < |s.conns| ==> s.conns[i].said == [] }

  ghost predicate NoRunReports(s: State, i: nat) {
    forall later: seq<Action> :: SaidNothing(After(s, later), i)
  }

  /** The places at which a flag stored now cannot keep Connect `i` from reporting Stopped and Failure. */
  predicate FlagMissesReport(s: State, i: nat)
    requires i < |s.conns|
  {
    var pc := s.conns[i].pc;
    pc.Clear? || (pc.Gate? && s.record.path.None?) || pc.SayStopped? || pc.SayFailure?
  }

  lemma ReportsNow(s: State, i: nat)
    requires i < |s.conns| && (s.conns[i].pc.SayStopped? || s.conns[i].pc.SayFailure?)
    ensures !SaidNothing(Next(s, ConnStep(i, true)), i)
  {}

  /** A Connect without a flag that fails while preparing. */
  lemma FailsAndReports(s: State, i: nat) returns (run: seq<Action>)
    requires i < |s.conns| && !s.teardown && (s.conns[i].pc.Prepare? || s.conns[i].pc.Failed?)
    ensures !SaidNothing(After(s, run), i)
    decreases StepsLeft(s.conns[i].pc)
  {
    var a := ConnStep(i, false);
    var t := Next(s, a);
    var rest: seq<Action>;
    if s.conns[i].pc.Prepare? {
      assert i < |t.conns| && t.conns[i].pc.Failed? && !t.teardown;
      hide Next;
      rest := FailsAndReports(t, i);
    } else {
      assert i < |t.conns| && t.conns[i].pc.SayStopped?;
      hide Next;
      ReportsNow(t, i);
      rest := [ConnStep(i, true)];
      AfterOne(t, ConnStep(i, true));
    }
    run := [a] + rest;
    AfterFirst(s, a, rest);
  }

  lemma MissedFlagLetsReport(s: State, i: nat) returns (run: seq<Action>)
    requires i < |s.conns| && FlagMissesReport(s, i)
    ensures !SaidNothing(After(s, run), i)
    decreases StepsLeft(s.conns[i].pc)
  {
    var a := ConnStep(i, true);
    if s.conns[i].pc.SayStopped? || s.conns[i].pc.SayFailure? {
      ReportsNow(s, i);
      run := [a];
      AfterOne(s, a);
    } else if s.conns[i].pc.Clear? {
      ClearsTheFlag(s, i);
      hide Next;
      var rest := FailsAndReports(Next(s, a), i);
      run := [a] + rest;
      AfterFirst(s, a, rest);
    } else {
      PassesTheGate(s, i);
      hide Next;
      var rest := MissedFlagLetsReport(Next(s, a), i);
      run := [a] + rest;
      AfterFirst(s, a, rest);
    }
  }

  /** Silent for good, or about to be turned away at the gate with the flag set. */
  predicate StaysSilentAtGate(s: State, i: nat) {
    || StaysSilent(s, i)
    || (i < |s.conns| && s.conns[i].said == [] && s.conns[i].pc.Gate? && s.lock == ByConnect(i) && s.teardown
        && s.record.path.Some?)
  }

  lemma SilenceStays(s: State, a: Action, i: nat)
    requires LockIsExclusive(s) && StaysSilentAtGate(s, i)
    ensures StaysSilentAtGate(Next(s, a), i)
  {
    if StaysSilent(s, i) {
      hide Next, StaysSilent;
      SilentOnesAreThere(s, i);
      StepsKeepPromises(s, a, i);
    } else if a.ConnStep? && a.conn == i {
      GateRefuses(s, i, a.ok);
    } else {
      OthersDisturbNobody(s, a, i);
      HeldRecordStays(s, a, i);
      hide Next;
    }
  }

  lemma SilentOnesAreThere(s: State, i: nat)
    requires StaysSilent(s, i)
    ensures i < |s.conns|
  {}

  lemma {:induction false} SilenceHolds(s: State, run: seq<Action>, i: nat)
    requires Inv(s) && StaysSilentAtGate(s, i)
    ensures StaysSilentAtGate(After(s, run), i)
    decreases |run|
  {
    hide Next, StaysSilentAtGate, Inv;
    if run != [] {
      var rest := run[..|run| - 1];
      SilenceHolds(s, rest, i);
      RunsKeep(s, rest);
      LockOf(After(s, rest));
      SilenceStays(After(s, rest), run[|run| - 1], i);
    }
  }

  /**
    * A Disconnect stores its flag while Connect `i` holds the lock and has said
    * nothing: the store keeps it silent for good if and only if it does not stand
    * at clear_teardown, at the open gate in front of it, or already at its report.
    */
  lemma SilenceWindowIsExact(before: seq<Action>, i: nat, j: nat, ok: bool)
    requires var s := After(START, before);
      i < |s.conns| && s.lock == ByConnect(i) && s.conns[i].said == [] && j < |s.discs| && s.discs[j].Arrived?
    ensures var s := After(START, before);
      NoRunReports(Next(s, DiscStep(j, ok)), i) <==> !FlagMissesReport(s, i)
  {
    hide After, RecordIsWhole, HolderFits, Accounted, AllSound;
    var s := After(START, before);
    RunIsGood(before);
    var t := Next(s, DiscStep(j, ok));
    NextKeeps(s, DiscStep(j, ok));
    if FlagMissesReport(s, i) {
      var run := MissedFlagLetsReport(t, i);
      assert !SaidNothing(After(t, run), i);
    } else {
      assert StaysSilentAtGate(t, i);
      forall later: seq<Action> | true ensures SaidNothing(After(t, later), i) {
        SilenceHolds(t, later, i);
      }
    }
  }

  // ----- The window is reached -----

  const FIRST_STEPS: seq<Action> := [CallConnect, CallDisconnect, ConnStep(0, true), ConnStep(0, true)]

  /** A Connect at clear_teardown, and a Disconnect about to store its flag. */
  const AT_CLEAR := START.(lock := ByConnect(0), conns := [Conn(Clear, FRESH, [])], discs := [Arrived])

  lemma ClearIsReached()
    ensures After(START, FIRST_STEPS) == AT_CLEAR
  {
    var s1 := Next(START, CallConnect);
    var s2 := Next(s1, CallDisconnect);
    var s3 := Next(s2, ConnStep(0, true));
    assert s3 == START.(lock := ByConnect(0), conns := [Conn(Gate, FRESH, [])], discs := [Arrived]);
    assert Next(s3, ConnStep(0, true)) == AT_CLEAR;
    FourSteps(CallConnect, CallDisconnect, ConnStep(0, true), ConnStep(0, true));
  }

  lemma FourSteps(a: Action, b: Action, c: Action, d: Action)
    ensures After(START, [a, b, c, d]) == Next(Next(Next(Next(START, a), b), c), d)
  {
    hide Next;
    AfterFirst(START, a, [b, c, d]);
    AfterFirst(Next(START, a), b, [c, d]);
    AfterFirst(Next(Next(START, a), b), c, [d]);
    AfterOne(Next(Next(Next(START, a), b), c), d);
    assert [a] + [b, c, d] == [a, b, c, d] && [b] + [c, d] == [b, c, d] && [c] + [d] == [c, d];
  }

  /** A flag stored too early is lost: here a Disconnect waits, and session.Connect is called all the same. */
  lemma EarlyFlagIsLost()
    ensures After(START, FIRST_STEPS) == AT_CLEAR
    ensures !NoRunDials(Next(AT_CLEAR, DiscStep(0, true)), 0)
  {
    ClearIsReached();
    FlagWindowIsExact(FIRST_STEPS, 0, 0, true);
  }

  // ----- Failures for the plugin's own doing -----

  function Folded(x: Session, kind: Kind, es: seq<Event>): Session
    decreases |es|
  {
    if es == [] then x else Folded(TaskStep(x, kind, es[0]), kind, es[1..])
  }

  function TaskRun(i: nat, kind: Kind, es: seq<Event>): seq<Action>
    decreases |es|
  {
    if es == [] then [] else [SessionTask(i, kind, es[0])] + TaskRun(i, kind, es[1..])
  }

  lemma {:induction false} TaskRunFolds(s: State, i: nat, kind: Kind, es: seq<Event>)
    requires i < |s.conns|
    ensures i < |After(s, TaskRun(i, kind, es)).conns|
    ensures After(s, TaskRun(i, kind, es)).conns[i].session == Folded(s.conns[i].session, kind, es)
    decreases |es|
  {
    hide TaskStep, After;
    if es == [] {
      assert After(s, []) == s by { AfterNothing(s); }
    } else {
      var a := SessionTask(i, kind, es[0]);
      var t := Next(s, a);
      TaskRunFolds(t, i, kind, es[1..]);
      AfterFirst(s, a, TaskRun(i, kind, es[1..]));
    }
  }

  lemma AfterNothing(s: State)
    ensures After(s, []) == s
  {}

  /** A session whose tasks all wait, and which the plugin has hung up on. */
  const HUNG_UP := HangUp(RequestDisconnect(SpawnPoller(SpawnWatchers(FRESH))))

  const YES_STEP := Goes(true, false)

  /** What a task sees and does on the way to a Failure that no look at the flag holds back. */
  function EventsFor(reason: Reason): seq<Event> {
    match reason
    case NeverStarted => [Sees(TimedOut(true)), YES_STEP, YES_STEP]
    case BadIpConfig => [Sees(Started), YES_STEP, Goes(false, true), YES_STEP, YES_STEP, YES_STEP]
    case Unreachable => [Sees(Started), YES_STEP, YES_STEP, Sees(Silent(true)), YES_STEP, YES_STEP]
    case _ => []
  }

  lemma FoldOne(x: Session, e: Event, es: seq<Event>)
    ensures Folded(x, Poller, [e] + es) == Folded(TaskStep(x, Poller, e), Poller, es)
  {
    assert ([e] + es)[1..] == es;
  }

  lemma TimesOut()
    ensures Folded(HUNG_UP, Poller, EventsFor(NeverStarted)).shared.failures == [Failure(true, NeverStarted)]
  {
    var x1 := TaskStep(HUNG_UP, Poller, Sees(TimedOut(true)));
    var x2 := TaskStep(x1, Poller, YES_STEP);
    var x3 := TaskStep(x2, Poller, YES_STEP);
    assert x3.shared.failures == [Failure(true, NeverStarted)];
    ThreeEvents(HUNG_UP, Sees(TimedOut(true)), YES_STEP, YES_STEP, []);
    assert EventsFor(NeverStarted) == [Sees(TimedOut(true)), YES_STEP, YES_STEP] + [];
  }

  lemma ThreeEvents(x: Session, a: Event, b: Event, c: Event, rest: seq<Event>)
    ensures Folded(x, Poller, [a, b, c] + rest)
         == Folded(TaskStep(TaskStep(TaskStep(x, Poller, a), Poller, b), Poller, c), Poller, rest)
  {
    hide TaskStep, Folded;
    FoldOne(x, a, [b, c] + rest);
    FoldOne(TaskStep(x, Poller, a), b, [c] + rest);
    FoldOne(TaskStep(TaskStep(x, Poller, a), Poller, b), c, rest);
    assert [a] + ([b, c] + rest) == [a, b, c] + rest && [b] + ([c] + rest) == [b, c] + rest;
  }

  lemma EmissionFails()
    ensures Folded(HUNG_UP, Poller, EventsFor(BadIpConfig)).shared.failures == [Failure(true, BadIpConfig)]
  {
    var x1 := TaskStep(HUNG_UP, Poller, Sees(Started));
    var x2 := TaskStep(x1, Poller, YES_STEP);
    var x3 := TaskStep(x2, Poller, Goes(false, true));
    assert x3.poller.at == RollBack(true);
    var x4 := TaskStep(x3, Poller, YES_STEP);
    var x5 := TaskStep(x4, Poller, YES_STEP);
    var x6 := TaskStep(x5, Poller, YES_STEP);
    assert x6.shared.failures == [Failure(true, BadIpConfig)];
    ThreeEvents(HUNG_UP, Sees(Started), YES_STEP, Goes(false, true), [YES_STEP, YES_STEP, YES_STEP]);
    ThreeEvents(x3, YES_STEP, YES_STEP, YES_STEP, []);
    assert EventsFor(BadIpConfig)
        == [Sees(Started), YES_STEP, Goes(false, true)] + ([YES_STEP, YES_STEP, YES_STEP] + []);
  }

  lemma FallsSilent()
    ensures Folded(HUNG_UP, Poller, EventsFor(Unreachable)).shared.failures == [Failure(true, Unreachable)]
  {
    var x1 := TaskStep(HUNG_UP, Poller, Sees(Started));
    var x2 := TaskStep(x1, Poller, YES_STEP);
    var x3 := TaskStep(x2, Poller, YES_STEP);
    assert x3.poller.at == Idle(true);
    var x4 := TaskStep(x3, Poller, Sees(Silent(true)));
    var x5 := TaskStep(x4, Poller, YES_STEP);
    var x6 := TaskStep(x5, Poller, YES_STEP);
    assert x6.shared.failures == [Failure(true, Unreachable)];
    ThreeEvents(HUNG_UP, Sees(Started), YES_STEP, YES_STEP, [Sees(Silent(true)), YES_STEP, YES_STEP]);
    ThreeEvents(x3, Sees(Silent(true)), YES_STEP, YES_STEP, []);
    assert EventsFor(Unreachable)
        == [Sees(Started), YES_STEP, YES_STEP] + ([Sees(Silent(true)), YES_STEP, YES_STEP] + []);
  }

  lemma OwnFailureOf(reason: Reason)
    requires !IsChecked(reason)
    ensures Folded(HUNG_UP, Poller, EventsFor(reason)).shared.failures == [Failure(true, reason)]
  {
    hide Folded, EventsFor;
    match reason {
      case NeverStarted => TimesOut();
      case BadIpConfig => EmissionFails();
      case Unreachable => FallsSilent();
    }
  }

  // ----- A run to a session that was hung up on -----

  function SessionAt(pc: ConnPc): Session {
    if pc.LastCheck? || pc.Dial? || pc.Arm? then SpawnWatchers(FRESH) else FRESH
  }

  /** A Connect on its way with untouched tasks, and a Disconnect that has not begun. */
  predicate InOrder(s: State, i: nat) {
    && OnItsWay(s, i) && s.lock == ByConnect(i) && |s.discs| == 1 && s.discs[0].Arrived?
    && s.conns[i].session == SessionAt(s.conns[i].pc)
    && (InBringup(s.conns[i].pc) ==> s.record.path == Some(i) && s.record.arcs == Some(i))
  }

  predicate IsUp(s: State, i: nat) {
    && i < |s.conns| && s.conns[i].pc.Leave? && s.lock == ByConnect(i) && |s.discs| == 1 && s.discs[0].Arrived?
    && s.conns[i].session == SpawnPoller(SpawnWatchers(FRESH))
    && s.record.path == Some(i) && s.record.arcs == Some(i)
  }

  lemma OrderedStep(s: State, i: nat)
    requires InOrder(s, i)
    ensures var t := Next(s, ConnStep(i, true)); if s.conns[i].pc.Arm? then IsUp(t, i) else InOrder(t, i)
  {
    hide SpawnWatchers, SpawnPoller;
    match s.conns[i].pc {
      case Prepare =>
      case EarlyCheck =>
      case Import =>
      case Tunnel =>
      case Stash =>
      case StashCheck =>
      case WaitReady =>
      case Watch =>
      case LastCheck =>
      case Dial =>
      case Arm =>
      case _ =>
    }
  }

  lemma {:induction false} ComesUp(s: State, i: nat) returns (run: seq<Action>)
    requires InOrder(s, i)
    ensures IsUp(After(s, run), i)
    decreases StepsLeft(s.conns[i].pc)
  {
    var a := ConnStep(i, true);
    OrderedStep(s, i);
    GrantedStep(s, i);
    hide Next, IsUp;
    if s.conns[i].pc.Arm? {
      run := [a];
      AfterOne(s, a);
    } else {
      var rest := ComesUp(Next(s, a), i);
      run := [a] + rest;
      AfterFirst(s, a, rest);
    }
  }

  lemma {:induction false} AfterAppend(s: State, a: seq<Action>, b: seq<Action>)
    ensures After(s, a + b) == After(After(s, a), b)
    decreases |b|
  {
    hide Next;
    if b == [] {
      assert a + b == a;
    } else {
      AfterAppend(s, a, b[..|b| - 1]);
      assert (a + b)[..|a + b| - 1] == a + b[..|b| - 1];
    }
  }

  /** The Disconnect's steps up to its session.Disconnect. */
  lemma TakesTheLock(s: State, i: nat)
    requires IsUp(s, i)
    ensures var t := Next(Next(Next(s, ConnStep(i, true)), DiscStep(0, true)), DiscStep(0, true));
      && |t.conns| == |s.conns| && t.conns[i].session == s.conns[i].session && t.record == s.record
      && t.discs == [Take]
  {
    hide SpawnWatchers, SpawnPoller;
    var a := Next(s, ConnStep(i, true));
    assert a.lock.Free? && a.discs == [Arrived] && |a.conns| == |s.conns|;
    var b := Next(a, DiscStep(0, true));
    assert b.lock.Free? && b.discs == [Parked] && b.conns == a.conns;
  }

  lemma HangsUp(s: State, i: nat)
    requires i < |s.conns| && s.discs == [Take] && s.record.path == Some(i) && s.record.arcs == Some(i)
    ensures var t := Next(Next(Next(s, DiscStep(0, true)), DiscStep(0, true)), DiscStep(0, true));
      i < |t.conns| && t.conns[i].session == HangUp(RequestDisconnect(s.conns[i].session))
  {
    hide HangUp, RequestDisconnect;
    var a := Next(s, DiscStep(0, true));
    assert |a.conns| == |s.conns| && a.conns[i].session == RequestDisconnect(s.conns[i].session);
    assert |a.discs| == 1 && a.discs[0].Abort? && a.discs[0].path == Some(i);
    var b := Next(a, DiscStep(0, true));
    assert b.conns == a.conns && |b.discs| == 1 && b.discs[0].End1? && b.discs[0].path == Some(i);
  }

  lemma SixSteps(s: State, i: nat)
    ensures var d := DiscStep(0, true);
      After(s, [ConnStep(i, true), d, d] + [d, d, d])
      == Next(Next(Next(Next(Next(Next(s, ConnStep(i, true)), d), d), d), d), d)
  {
    hide Next;
    var c, d := ConnStep(i, true), DiscStep(0, true);
    AfterFirst(s, c, [d, d, d, d, d]);
    AfterFirst(Next(s, c), d, [d, d, d, d]);
    AfterFirst(Next(Next(s, c), d), d, [d, d, d]);
    AfterFirst(Next(Next(Next(s, c), d), d), d, [d, d]);
    AfterFirst(Next(Next(Next(Next(s, c), d), d), d), d, [d]);
    AfterOne(Next(Next(Next(Next(Next(s, c), d), d), d), d), d);
    assert [c, d, d] + [d, d, d] == [c] + [d, d, d, d, d];
    assert [d] + [d, d, d, d] == [d, d, d, d, d] && [d] + [d, d, d] == [d, d, d, d];
    assert [d] + [d, d] == [d, d, d] && [d] + [d] == [d, d];
  }

  lemma HungUpIsReached() returns (run: seq<Action>)
    ensures var s := After(START, run); |s.conns| > 0 && s.conns[0].session == HUNG_UP
  {
    ClearIsReached();
    var c, d := ConnStep(0, true), DiscStep(0, true);
    var s1 := Next(AT_CLEAR, c);
    assert InOrder(s1, 0);
    hide Next, InOrder, IsUp, SpawnWatchers, SpawnPoller, HangUp, RequestDisconnect;
    var up := ComesUp(s1, 0);
    var s2 := After(s1, up);
    TakesTheLock(s2, 0);
    UpIsReady(s2, 0);
    HangsUp(Next(Next(Next(s2, c), d), d), 0);
    SixSteps(s2, 0);
    var last := [c, d, d] + [d, d, d];
    AfterAppend(s1, up, last);
    AfterFirst(AT_CLEAR, c, up + last);
    AfterAppend(START, FIRST_STEPS, [c] + (up + last));
    run := FIRST_STEPS + ([c] + (up + last));
  }

  lemma UpIsReady(s: State, i: nat)
    requires IsUp(s, i)
    ensures i < |s.conns| && s.conns[i].session == SpawnPoller(SpawnWatchers(FRESH))
    ensures s.record.path == Some(i) && s.record.arcs == Some(i)
  {}

  ghost predicate CanFailForOwn(reason: Reason) {
    exists run: seq<Action>, i: nat ::
      i < |After(START, run).conns| && Failure(true, reason) in After(START, run).conns[i].session.shared.failures
  }

  /**
    * For an event of the plugin's own making a task can send a Failure if and
    * only if its reason belongs to an arm that does not look at the flag: a
    * timeout, a lost status read or a failed emission.
    */
  lemma OwnFailuresExactly(reason: Reason)
    ensures CanFailForOwn(reason) <==> !IsChecked(reason)
  {
    hide After, Folded, EventsFor, TaskRun;
    if !IsChecked(reason) {
      var run := HungUpIsReached();
      var es := EventsFor(reason);
      TaskRunFolds(After(START, run), 0, Poller, es);
      AfterAppend(START, run, TaskRun(0, Poller, es));
      OwnFailureOf(reason);
      var whole := run + TaskRun(0, Poller, es);
      assert Failure(true, reason) in After(START, whole).conns[0].session.shared.failures;
    } else if CanFailForOwn(reason) {
      var run: seq<Action>, i: nat :| i < |After(START, run).conns|
        && Failure(true, reason) in After(START, run).conns[i].session.shared.failures;
      FailureOnce(run, i);
      assert false;
    }
  }
}
