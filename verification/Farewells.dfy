/**
  * What a Disconnect comes to: what it took from the record, what the backend
  * answered, and that NetworkManager hears Stopped exactly once.
  */
module Farewells {
  import opened Text
  import opened Sessions
  import opened Protocol
  import opened Runs
  import H = Histories
  import O = Outcomes

  /** The record it took, the answers to its session.Disconnect calls, and how often it said Stopped. */
  datatype Farewell = Farewell(taken: Option<Record>, hangs: seq<bool>, told: nat)

  const SILENT := Farewell(None, [], 0)

  /** What one step of Disconnect `j` adds; without a session there is nothing to call session.Disconnect for. */
  function Heard(s: State, pc: DiscPc, ok: bool, f: Farewell): Farewell {
    match pc
    case Take => f.(taken := Some(s.record))
    case End1(path, _) => if path.Some? then f.(hangs := f.hangs + [ok]) else f
    case End2(path, _) => if path.Some? then f.(hangs := f.hangs + [ok]) else f
    case TellStopped => f.(told := f.told + 1)
    case _ => f
  }

  function Witness(s: State, a: Action, j: nat, f: Farewell): Farewell {
    if a.DiscStep? && a.disc == j && j < |s.discs| then Heard(s, s.discs[j], a.ok, f) else f
  }

  function FarewellAfter(run: seq<Action>, j: nat): Farewell
    decreases |run|
  {
    if run == [] then SILENT
    else
      var rest := run[..|run| - 1];
      Witness(After(START, rest), run[|run| - 1], j, FarewellAfter(rest, j))
  }

  // ---------- Where a Disconnect stands ----------

  function DiscOf(s: State, j: nat): DiscPc { if j < |s.discs| then s.discs[j] else Arrived }

  /** What is in its hands is what it took. */
  predicate Carries(f: Farewell, path: Option<nat>, config: Option<nat>) {
    f.taken.Some? && f.taken.value.path == path && f.taken.value.config == config
  }

  predicate Asked(f: Farewell) {
    f.taken.Some? && if f.taken.value.path.Some? then H.Hung(f.hangs) else f.hangs == []
  }

  predicate HandsFit(pc: DiscPc, f: Farewell) {
    match pc
    case Abort(path, config, tasks) =>
      Carries(f, path, config) && f.taken.value.tasks == tasks && f.hangs == [] && f.told == 0
    case End1(path, config) => Carries(f, path, config) && f.hangs == [] && f.told == 0
    case End2(path, config) => Carries(f, path, config) && path.Some? && f.hangs == [false] && f.told == 0
    case Drop(config) => Asked(f) && f.taken.value.config == config && f.told == 0
    case TellStopped => Asked(f) && f.told == 0
    case Exit => Asked(f) && f.told == 1
    case Over => Asked(f) && f.told == 1
    case _ => f == SILENT
  }

  lemma OwnHands(s: State, j: nat, ok: bool, f: Farewell)
    requires j < |s.discs| && HandsFit(s.discs[j], f)
    requires s.discs[j].End1? || s.discs[j].End2? ==> s.discs[j].path.Some? ==> Names(s.discs[j].path, s)
    ensures j < |DisconnectStep(s, j, ok).discs|
    ensures HandsFit(DisconnectStep(s, j, ok).discs[j], Heard(s, s.discs[j], ok, f))
  {
    hide FlagGuards, EndSession;
    FlagGuardsLeaveDiscs(s);
    match s.discs[j] {
      case End1(p, _) =>
        if p.Some? {
          EndSessionLeavesDiscs(s, p.value, ok);
          assert f.hangs + [ok] == [ok];
        }
      case End2(p, _) =>
        EndSessionLeavesDiscs(s, p.value, ok);
        assert f.hangs + [ok] == [false, ok];
      case _ =>
    }
  }

  predicate Parting(pc: DiscPc) { DiscHolds(pc) && !pc.Take? }

  /** What became of session `q` and its config by the time a Disconnect that took it stands at `pc`. */
  predicate FateFits(s: State, pc: DiscPc, f: Farewell, q: nat) {
    && q < |s.conns| && s.conns[q].session.shared.disconnectRequested
    && (s.conns[q].session.shared.hungUp <==> f.hangs != [])
    && (q in s.backend.givenUp <==> f.hangs == [false, false])
    && (H.Hung(f.hangs) && q in s.backend.live ==> f.hangs == [false, false])
    && (q in s.backend.removed <==> pc.TellStopped? || pc.Exit?)
  }

  predicate SessionFits(s: State, j: nat, f: Farewell) {
    var pc := DiscOf(s, j);
    Parting(pc) && f.taken.Some? ==>
      && f.taken.value.config == f.taken.value.path
      && (f.taken.value.path.Some? ==> FateFits(s, pc, f, f.taken.value.path.value))
  }

  predicate TasksFit(s: State, j: nat, f: Farewell) {
    var pc := DiscOf(s, j);
    f.taken.Some? && !pc.Abort? ==> f.taken.value.tasks <= s.backend.aborted
  }

  lemma OwnTasks(s: State, j: nat, ok: bool, f: Farewell)
    requires j < |s.discs| && HandsFit(s.discs[j], f) && TasksFit(s, j, f)
    ensures TasksFit(DisconnectStep(s, j, ok), j, Heard(s, s.discs[j], ok, f))
  {
    match s.discs[j] {
      case Arrived =>
      case Parked =>
      case Take =>
      case Abort(_, _, _) =>
      case End1(_, _) =>
      case End2(_, _) =>
      case Drop(_) =>
      case TellStopped =>
      case Exit =>
      case Over =>
    }
  }

  /** A Disconnect about to take a session finds it neither given up nor removed. */
  predicate FreshInRecord(s: State) {
    && s.record.config == s.record.path
    && (s.record.path.Some? ==>
          var q := s.record.path.value;
          && s.record.arcs == Some(q) && q < |s.conns|
          && q !in s.backend.givenUp && q !in s.backend.removed && !s.conns[q].session.shared.hungUp)
  }

  lemma OwnSession(s: State, j: nat, ok: bool, f: Farewell)
    requires j < |s.discs| && HandsFit(s.discs[j], f) && SessionFits(s, j, f)
    requires s.discs[j].Take? ==> FreshInRecord(s)
    requires HandsFit(DiscOf(DisconnectStep(s, j, ok), j), Heard(s, s.discs[j], ok, f))
    ensures SessionFits(DisconnectStep(s, j, ok), j, Heard(s, s.discs[j], ok, f))
  {
    match s.discs[j] {
      case Arrived =>
      case Parked =>
      case Take =>
      case Abort(_, _, _) =>
      case End1(p, _) => assert f.hangs + [ok] == [ok];
      case End2(p, _) => assert f.hangs + [ok] == [false, ok];
      case Drop(_) =>
      case TellStopped =>
      case Exit =>
      case Over =>
    }
  }

  // ---------- Whole runs ----------

  predicate Parted(s: State, j: nat, f: Farewell) {
    HandsFit(DiscOf(s, j), f) && SessionFits(s, j, f) && TasksFit(s, j, f)
  }

  /** While a Disconnect holds the lock nobody else changes what became of its session. */
  predicate Quiet(s: State, t: State) {
    && |t.conns| >= |s.conns| && t.backend.givenUp == s.backend.givenUp && t.backend.removed == s.backend.removed
    && t.backend.live <= s.backend.live
    && forall q :: 0 <= q < |s.conns| ==>
         && t.conns[q].session.shared.disconnectRequested == s.conns[q].session.shared.disconnectRequested
         && t.conns[q].session.shared.hungUp == s.conns[q].session.shared.hungUp
  }

  lemma OthersAreQuiet(s: State, a: Action, j: nat)
    requires LockIsExclusive(s) && j < |s.discs| && DiscHolds(s.discs[j]) && !(a.DiscStep? && a.disc == j)
    ensures Quiet(s, Next(s, a))
  {
    hide TaskStep;
    match a {
      case CallConnect =>
      case CallDisconnect =>
      case NewSecrets =>
      case ConnStep(k, ok) => if k < |s.conns| { WaitingStays(s, k, ok); }
      case DiscStep(k, ok) =>
      case SessionTask(k, kind, e) => if k < |s.conns| { StepLeavesFlags(s.conns[k].session, kind, e); }
      case LoseSession(_) =>
      case LoseConfig(_) =>
    }
  }

  lemma WaitingStays(s: State, k: nat, ok: bool)
    requires k < |s.conns| && !Holds(s.conns[k].pc) && !s.lock.Free?
    ensures ConnectStep(s, k, ok) == s
  {}

  lemma AbortsGrow(s: State, a: Action)
    ensures s.backend.aborted <= Next(s, a).backend.aborted
  {
    hide TaskStep, RequestDisconnect, HangUp, SpawnWatchers, SpawnPoller;
  }

  lemma QuietKeeps(s: State, t: State, j: nat, f: Farewell)
    requires Quiet(s, t) && DiscOf(t, j) == DiscOf(s, j) && SessionFits(s, j, f)
    ensures SessionFits(t, j, f)
  {}

  lemma OtherParts(s: State, a: Action, j: nat, f: Farewell)
    requires LockIsExclusive(s) && Parted(s, j, f) && j < |s.discs| && !(a.DiscStep? && a.disc == j)
    ensures Parted(Next(s, a), j, f)
  {
    hide Next, HandsFit, SessionFits, LockIsExclusive, Quiet, Parting;
    OthersLeaveDisc(s, a, j);
    AbortsGrow(s, a);
    if Parting(s.discs[j]) {
      HoldsOn(s.discs[j]);
      OthersAreQuiet(s, a, j);
      QuietKeeps(s, Next(s, a), j, f);
    } else {
      NobodyParts(Next(s, a), j, f);
    }
  }

  lemma HoldsOn(pc: DiscPc)
    ensures Parting(pc) ==> DiscHolds(pc)
  {}

  lemma NobodyParts(s: State, j: nat, f: Farewell)
    requires !Parting(DiscOf(s, j))
    ensures SessionFits(s, j, f)
  {}

  lemma OwnParts(s: State, j: nat, ok: bool, f: Farewell)
    requires Parted(s, j, f) && j < |s.discs|
    requires s.discs[j].Take? ==> FreshInRecord(s)
    ensures Parted(DisconnectStep(s, j, ok), j, Heard(s, s.discs[j], ok, f))
  {
    hide DisconnectStep, SessionFits, TasksFit, Heard;
    NamedAreThere(s, j, f);
    OwnHands(s, j, ok, f);
    OwnTasks(s, j, ok, f);
    OwnSession(s, j, ok, f);
  }

  lemma NamedAreThere(s: State, j: nat, f: Farewell)
    requires j < |s.discs| && HandsFit(s.discs[j], f) && SessionFits(s, j, f)
    ensures s.discs[j].End1? || s.discs[j].End2? ==> s.discs[j].path.Some? ==> Names(s.discs[j].path, s)
  {}

  /** The session in the record of a run was neither hung up on nor given up so far. */
  lemma RecordIsFresh(run: seq<Action>, j: nat)
    requires j < |After(START, run).discs| && After(START, run).discs[j].Take?
    ensures FreshInRecord(After(START, run))
  {
    hide After, H.PastAfter;
    var s := After(START, run);
    RunIsGood(run);
    if s.record.path.Some? {
      var q := s.record.path.value;
      assert s.record.config == Some(q) && s.record.arcs == Some(q) && q < |s.conns| by {
        hide LockIsExclusive, HolderFits, Accounted, AllSound;
      }
      H.AloneInLock(s, j, q);
      hide Inv;
      O.LeftBehind(run, q);
      O.TrailOf(run, q);
      KeptIsFresh(s, q, H.PastAfter(run, q));
    } else {
      hide LockIsExclusive, HolderFits, Accounted, AllSound;
    }
  }

  lemma KeptIsFresh(s: State, q: nat, p: H.Past)
    requires q < |s.conns| && (s.conns[q].pc.Queued? || s.conns[q].pc.Done?)
    requires s.record.path == Some(q) && H.CourseFits(s.conns[q], p) && H.Counted(s.conns[q].pc, p.trail)
    requires H.RecordFits(s, q, p) && (H.Kept(s, q, p) ==> H.ClearsFit(s, q, p))
    ensures q !in s.backend.givenUp && q !in s.backend.removed && !s.conns[q].session.shared.hungUp
  {
    hide H.StageFits, H.HangsFit, H.WordsFit, H.RecordHolds, H.Bad;
    if s.conns[q].pc.Done? {
      O.EndedCourse(s.conns[q], p);
    }
  }

  lemma {:induction false} PartedAfter(run: seq<Action>, j: nat)
    ensures Parted(After(START, run), j, FarewellAfter(run, j))
    decreases |run|
  {
    hide Next, Parted, Inv, Witness, FreshInRecord, LockIsExclusive;
    if run == [] {
      PartedAtStart(j);
    } else {
      var rest, a := run[..|run| - 1], run[|run| - 1];
      PartedAfter(rest, j);
      RunIsGood(rest);
      LockOf(After(START, rest));
      if j < |After(START, rest).discs| && After(START, rest).discs[j].Take? {
        RecordIsFresh(rest, j);
      }
      StepParts(After(START, rest), a, j, FarewellAfter(rest, j));
    }
  }

  lemma StepParts(s: State, a: Action, j: nat, f: Farewell)
    requires LockIsExclusive(s) && Parted(s, j, f)
    requires j < |s.discs| && s.discs[j].Take? ==> FreshInRecord(s)
    ensures Parted(Next(s, a), j, Witness(s, a, j, f))
  {
    hide Parted, DisconnectStep, Heard, ConnectStep, TaskStep, LockIsExclusive, FreshInRecord;
    if j >= |s.discs| {
      NotYet(s, a, j, f);
    } else if a.DiscStep? && a.disc == j {
      OwnParts(s, j, a.ok, f);
    } else {
      OtherParts(s, a, j, f);
    }
  }

  lemma PartedAtStart(j: nat)
    ensures Parted(START, j, SILENT)
  {}

  lemma NotYet(s: State, a: Action, j: nat, f: Farewell)
    requires j >= |s.discs| && Parted(s, j, f)
    ensures Parted(Next(s, a), j, f)
  {
    hide ConnectStep, DisconnectStep, TaskStep;
    match a {
      case ConnStep(k, ok) => if k < |s.conns| { ConnectLeavesDiscs(s, k, ok); }
      case DiscStep(k, ok) => if k < |s.discs| { DisconnectMovesItself(s, k, ok); }
      case _ =>
    }
  }

  /**
    * As a Disconnect returns: it has said Stopped exactly once; if it found no
    * session it never called session.Disconnect; otherwise it asked once, and
    * once more if refused, the session is left only if both were refused, its
    * config had Remove called, and all the tasks in the record are aborted.
    */
  lemma DisconnectOutcome(run: seq<Action>, j: nat)
    requires j < |After(START, run).discs| && After(START, run).discs[j].Exit?
    ensures var s, f := After(START, run), FarewellAfter(run, j);
      && f.told == 1 && f.taken.Some? && f.taken.value.tasks <= s.backend.aborted
      && match f.taken.value.path
         case None => f.hangs == []
         case Some(q) =>
           && (f.hangs == [true] || f.hangs == [false, true] || f.hangs == [false, false])
           && (q in s.backend.givenUp <==> f.hangs == [false, false])
           && (q in s.backend.live ==> f.hangs == [false, false])
           && q in s.backend.removed
           && q < |s.conns| && s.conns[q].session.shared.disconnectRequested && s.conns[q].session.shared.hungUp
  {
    hide After, FarewellAfter;
    PartedAfter(run, j);
  }

  /** Every Disconnect says Stopped at most once, and has said it when it has returned. */
  lemma SaysStoppedOnce(run: seq<Action>, j: nat)
    requires j < |After(START, run).discs|
    ensures var pc := After(START, run).discs[j];
      FarewellAfter(run, j).told == if pc.Exit? || pc.Over? then 1 else 0
  {
    hide After, FarewellAfter, SessionFits, TasksFit;
    PartedAfter(run, j);
  }
}
