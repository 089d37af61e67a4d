/**
  * What a Connect comes to, told by the answers it got.  The history of a call
  * is read off the run itself: each question the call asks on its way, of the
  * backend, of the record or of the teardown flag, is noted with its answer.
  */
module Histories {
  import opened Text
  import opened Sessions
  import opened Protocol
  import opened Runs

  /** What a Connect asks, in words of its own. */
  datatype Question = Vacant | Profile | NoFlag | Imports | Tunnels | Ready | Connects

  /** A question with its answer: `good` lets the call go on. */
  datatype Fact = Fact(asked: Question, good: bool)

  /** The questions in the order in which a Connect that succeeds asks them. */
  function Course(n: nat): Question {
    if n == 0 then Vacant
    else if n == 1 then Profile
    else if n == 3 then Imports
    else if n == 4 then Tunnels
    else if n == 6 then Ready
    else if n == 8 then Connects
    else NoFlag
  }

  /**
    * The history of one Connect: the questions it asked, what its own calls of
    * session.Disconnect were answered, the teardown flag as its report saw it,
    * and whether the backend dropped its session or its config by itself.
    */
  datatype Past = Past(
    trail: seq<Fact>,
    hangs: seq<bool>,
    flagSeen: Option<bool>,
    lostSession: bool,
    lostConfig: bool)

  const UNASKED := Past([], [], None, false, false)

  function Noted(p: Past, q: Question, good: bool): Past { p.(trail := p.trail + [Fact(q, good)]) }

  /** What one step of Connect `i`, at `pc`, adds to its history. */
  function Heard(s: State, pc: ConnPc, ok: bool, p: Past): Past {
    match pc
    case Gate => Noted(p, Vacant, s.record.path.None?)
    case Prepare => Noted(p, Profile, ok)
    case EarlyCheck => Noted(p, NoFlag, !s.teardown)
    case Import => Noted(p, Imports, ok)
    case Tunnel => Noted(p, Tunnels, ok)
    case StashCheck => Noted(p, NoFlag, !s.teardown)
    case WaitReady => Noted(p, Ready, ok)
    case LastCheck => Noted(p, NoFlag, !s.teardown)
    case Dial => Noted(p, Connects, ok)
    case HangUp1(_) => p.(hangs := p.hangs + [ok])
    case HangUp2(_) => p.(hangs := p.hangs + [ok])
    case Failed => p.(flagSeen := Some(s.teardown))
    case _ => p
  }

  function Witness(s: State, a: Action, i: nat, p: Past): Past {
    match a
    case ConnStep(k, ok) => if k == i && i < |s.conns| then Heard(s, s.conns[i].pc, ok, p) else p
    case LoseSession(k) => if k == i then p.(lostSession := true) else p
    case LoseConfig(k) => if k == i then p.(lostConfig := true) else p
    case _ => p
  }

  /** The history of Connect `i` in a run from the start. */
  function PastAfter(run: seq<Action>, i: nat): Past
    decreases |run|
  {
    if run == [] then UNASKED
    else
      var rest := run[..|run| - 1];
      Witness(After(START, rest), run[|run| - 1], i, PastAfter(rest, i))
  }

  // ---------- The shape of a history ----------

  /** The first `n` questions of the course, all with good answers. */
  predicate OnCourse(trail: seq<Fact>, n: nat)
  {
    |trail| == n && forall k :: 0 <= k < n ==> trail[k] == Fact(Course(k), true)
  }

  /** Good answers along the course, and one bad one at the end. */
  predicate Fails(trail: seq<Fact>) {
    && 1 <= |trail| <= 9
    && forall k :: 0 <= k < |trail| ==> trail[k] == Fact(Course(k), k < |trail| - 1)
  }

  predicate Bad(trail: seq<Fact>) { trail != [] && !trail[|trail| - 1].good }

  /** How many questions were answered well. */
  function Good(trail: seq<Fact>): nat { if Bad(trail) then |trail| - 1 else |trail| }

  /** session.Disconnect is asked for once, and once more if it was refused. */
  predicate Hung(hangs: seq<bool>) { hangs == [true] || hangs == [false, true] || hangs == [false, false] }

  predicate StageFits(pc: ConnPc, p: Past) {
    match pc
    case Queued => OnCourse(p.trail, 0)
    case Gate => OnCourse(p.trail, 0)
    case Clear => OnCourse(p.trail, 1)
    case Prepare => OnCourse(p.trail, 1)
    case EarlyCheck => OnCourse(p.trail, 2)
    case Import => OnCourse(p.trail, 3)
    case Tunnel => OnCourse(p.trail, 4)
    case Unimport => Fails(p.trail) && |p.trail| == 5
    case Stash => OnCourse(p.trail, 5)
    case StashCheck => OnCourse(p.trail, 5)
    case WaitReady => OnCourse(p.trail, 6)
    case Watch => OnCourse(p.trail, 7)
    case LastCheck => OnCourse(p.trail, 7)
    case Dial => OnCourse(p.trail, 8)
    case Arm => OnCourse(p.trail, 9)
    case Retire => Fails(p.trail) && |p.trail| >= 6
    case HangUp1(_) => Fails(p.trail) && |p.trail| >= 6
    case HangUp2(_) => Fails(p.trail) && |p.trail| >= 6
    case Reclaim(_) => Fails(p.trail) && |p.trail| >= 6
    case Failed => Fails(p.trail)
    case SayStopped => Fails(p.trail)
    case SayFailure => Fails(p.trail)
    case Leave => OnCourse(p.trail, 9) || Fails(p.trail)
    case Done => OnCourse(p.trail, 9) || Fails(p.trail)
  }

  predicate HangsFit(pc: ConnPc, p: Past) {
    match pc
    case HangUp2(_) => p.hangs == [false]
    case Reclaim(_) => Hung(p.hangs)
    case Failed => if |p.trail| >= 6 then Hung(p.hangs) else p.hangs == []
    case SayStopped => if |p.trail| >= 6 then Hung(p.hangs) else p.hangs == []
    case SayFailure => if |p.trail| >= 6 then Hung(p.hangs) else p.hangs == []
    case Leave => if |p.trail| >= 6 && Fails(p.trail) then Hung(p.hangs) else p.hangs == []
    case Done => if |p.trail| >= 6 && Fails(p.trail) then Hung(p.hangs) else p.hangs == []
    case _ => p.hangs == []
  }

  predicate WordsFit(c: Conn, p: Past) {
    match c.pc
    case SayStopped => p.flagSeen == Some(false) && c.said == []
    case SayFailure => p.flagSeen == Some(false) && c.said == [StoppedSignal]
    case Leave => Reported(c, p)
    case Done => Reported(c, p)
    case _ => p.flagSeen == None && c.said == []
  }

  /** The report is made exactly if the call failed and saw no flag. */
  predicate Reported(c: Conn, p: Past) {
    && (p.flagSeen.None? <==> OnCourse(p.trail, 9))
    && c.said == if p.flagSeen == Some(false) then [StoppedSignal, FailureSignal] else []
  }

  predicate CourseFits(c: Conn, p: Past) { StageFits(c.pc, p) && HangsFit(c.pc, p) && WordsFit(c, p) }

  lemma OneMore(p: Past, n: nat, q: Question, good: bool)
    requires n < 9 && OnCourse(p.trail, n) && q == Course(n)
    ensures good ==> OnCourse(Noted(p, q, good).trail, n + 1)
    ensures !good ==> Fails(Noted(p, q, good).trail) && |Noted(p, q, good).trail| == n + 1
  {}

  lemma NotBoth(trail: seq<Fact>, n: nat)
    requires OnCourse(trail, n)
    ensures !Fails(trail)
  {
    if n > 0 {
      assert trail[n - 1].good;
    }
  }

  /** Which place follows which answer, and what is said on the way. */
  predicate Strides(s: State, c: Conn, ok: bool, d: Conn) {
    match c.pc
    case Queued => d.said == c.said && (d.pc == Queued || d.pc == Gate)
    case Gate => d.said == c.said && d.pc == if s.record.path.None? then Clear else Failed
    case Clear => d.said == c.said && d.pc == Prepare
    case Prepare => d.said == c.said && d.pc == if ok then EarlyCheck else Failed
    case EarlyCheck => d.said == c.said && d.pc == if s.teardown then Failed else Import
    case Import => d.said == c.said && d.pc == if ok then Tunnel else Failed
    case Tunnel => d.said == c.said && d.pc == if ok then Stash else Unimport
    case Unimport => d.said == c.said && d.pc == Failed
    case Stash => d.said == c.said && d.pc == StashCheck
    case StashCheck => d.said == c.said && d.pc == if s.teardown then Retire else WaitReady
    case WaitReady => d.said == c.said && d.pc == if ok then Watch else Retire
    case Watch => d.said == c.said && d.pc == LastCheck
    case LastCheck => d.said == c.said && d.pc == if s.teardown then Retire else Dial
    case Dial => d.said == c.said && d.pc == if ok then Arm else Retire
    case Arm => d.said == c.said && d.pc == Leave
    case Retire => d.said == c.said && d.pc.HangUp1?
    case HangUp1(_) => d.said == c.said && if ok then d.pc.Reclaim? else d.pc.HangUp2?
    case HangUp2(_) => d.said == c.said && d.pc.Reclaim?
    case Reclaim(_) => d.said == c.said && d.pc == Failed
    case Failed => d.said == c.said && d.pc == if s.teardown then Leave else SayStopped
    case SayStopped => d.said == c.said + [StoppedSignal] && d.pc == SayFailure
    case SayFailure => d.said == c.said + [FailureSignal] && d.pc == Leave
    case Leave => d.said == c.said && d.pc == Done
    case Done => d.said == c.said && d.pc == Done
  }

  lemma SetupStrides(s: State, i: nat, ok: bool)
    requires i < |s.conns| && InSetup(s.conns[i].pc)
    ensures i < |Setup(s, i, ok).conns| && Strides(s, s.conns[i], ok, Setup(s, i, ok).conns[i])
  {
    match s.conns[i].pc {
      case Queued =>
      case Gate =>
      case Clear =>
      case Prepare =>
      case EarlyCheck =>
      case Import =>
      case Tunnel =>
      case Unimport =>
      case Stash =>
      case _ =>
    }
  }

  lemma BringupStrides(s: State, i: nat, ok: bool)
    requires i < |s.conns| && InBringup(s.conns[i].pc)
    ensures i < |Bringup(s, i, ok).conns| && Strides(s, s.conns[i], ok, Bringup(s, i, ok).conns[i])
  {
    hide SpawnWatchers, SpawnPoller;
    match s.conns[i].pc {
      case StashCheck =>
      case WaitReady =>
      case Watch =>
      case LastCheck =>
      case Dial =>
      case Arm =>
      case _ =>
    }
  }

  lemma CleanupStrides(s: State, i: nat, ok: bool)
    requires i < |s.conns| && InCleanup(s.conns[i].pc)
    ensures i < |Cleanup(s, i, ok).conns| && Strides(s, s.conns[i], ok, Cleanup(s, i, ok).conns[i])
  {
    hide FlagGuards, EndSession;
    FlagGuardsLeaves(s, i);
    EndSessionLeaves(s, i, ok, i);
    match s.conns[i].pc {
      case Retire =>
      case HangUp1(_) =>
      case HangUp2(_) =>
      case _ =>
    }
  }

  lemma ReportStrides(s: State, i: nat)
    requires i < |s.conns| && !InSetup(s.conns[i].pc) && !InBringup(s.conns[i].pc) && !InCleanup(s.conns[i].pc)
    ensures i < |Report(s, i).conns|
    ensures forall ok :: Strides(s, s.conns[i], ok, Report(s, i).conns[i])
  {
    match s.conns[i].pc {
      case Failed =>
      case SayStopped =>
      case SayFailure =>
      case Leave =>
      case _ =>
    }
  }

  lemma OwnStrides(s: State, i: nat, ok: bool)
    requires i < |s.conns|
    ensures i < |ConnectStep(s, i, ok).conns| && Strides(s, s.conns[i], ok, ConnectStep(s, i, ok).conns[i])
  {
    hide Setup, Bringup, Cleanup, Report, Strides;
    if InSetup(s.conns[i].pc) {
      SetupStrides(s, i, ok);
    } else if InBringup(s.conns[i].pc) {
      BringupStrides(s, i, ok);
    } else if InCleanup(s.conns[i].pc) {
      CleanupStrides(s, i, ok);
    } else {
      ReportStrides(s, i);
    }
  }

  /** The answer to the question asked at a place carries the call one question further, or ends its course. */
  lemma SetupStageKeeps(s: State, c: Conn, ok: bool, d: Conn, p: Past)
    requires InSetup(c.pc) && StageFits(c.pc, p) && Strides(s, c, ok, d)
    ensures StageFits(d.pc, Heard(s, c.pc, ok, p))
  {
    hide OnCourse, Fails;
    match c.pc {
      case Queued =>
      case Gate => OneMore(p, 0, Vacant, s.record.path.None?);
      case Clear =>
      case Prepare => OneMore(p, 1, Profile, ok);
      case EarlyCheck => OneMore(p, 2, NoFlag, !s.teardown);
      case Import => OneMore(p, 3, Imports, ok);
      case Tunnel => OneMore(p, 4, Tunnels, ok);
      case Unimport =>
      case Stash =>
      case _ =>
    }
  }

  lemma BringupStageKeeps(s: State, c: Conn, ok: bool, d: Conn, p: Past)
    requires InBringup(c.pc) && StageFits(c.pc, p) && Strides(s, c, ok, d)
    ensures StageFits(d.pc, Heard(s, c.pc, ok, p))
  {
    hide OnCourse, Fails;
    match c.pc {
      case StashCheck => OneMore(p, 5, NoFlag, !s.teardown);
      case WaitReady => OneMore(p, 6, Ready, ok);
      case Watch =>
      case LastCheck => OneMore(p, 7, NoFlag, !s.teardown);
      case Dial => OneMore(p, 8, Connects, ok);
      case Arm =>
      case _ =>
    }
  }

  lemma LateStageKeeps(s: State, c: Conn, ok: bool, d: Conn, p: Past)
    requires !InSetup(c.pc) && !InBringup(c.pc) && StageFits(c.pc, p) && Strides(s, c, ok, d)
    ensures StageFits(d.pc, Heard(s, c.pc, ok, p))
  {
    hide OnCourse, Fails;
  }

  lemma HangsKeep(s: State, c: Conn, ok: bool, d: Conn, p: Past)
    requires StageFits(c.pc, p) && HangsFit(c.pc, p) && Strides(s, c, ok, d)
    ensures HangsFit(d.pc, Heard(s, c.pc, ok, p))
  {
    hide OnCourse, Fails;
    match c.pc {
      case Gate => OneMore(p, 0, Vacant, s.record.path.None?);
      case Prepare => OneMore(p, 1, Profile, ok);
      case EarlyCheck => OneMore(p, 2, NoFlag, !s.teardown);
      case Import => OneMore(p, 3, Imports, ok);
      case Arm => NotBoth(p.trail, 9);
      case HangUp1(_) => assert p.hangs + [ok] == [ok];
      case HangUp2(_) => assert p.hangs + [ok] == [false, ok];
      case _ =>
    }
  }

  lemma WordsKeep(s: State, c: Conn, ok: bool, d: Conn, p: Past)
    requires StageFits(c.pc, p) && WordsFit(c, p) && Strides(s, c, ok, d)
    ensures WordsFit(d, Heard(s, c.pc, ok, p))
  {
    hide OnCourse, Fails;
    if OnCourse(p.trail, 9) {
      NotBoth(p.trail, 9);
    }
    if c.pc.SayFailure? {
      assert c.said + [FailureSignal] == [StoppedSignal, FailureSignal];
    }
  }

  lemma OwnCourse(s: State, i: nat, ok: bool, p: Past)
    requires i < |s.conns| && CourseFits(s.conns[i], p)
    ensures i < |ConnectStep(s, i, ok).conns|
    ensures CourseFits(ConnectStep(s, i, ok).conns[i], Heard(s, s.conns[i].pc, ok, p))
  {
    hide ConnectStep, Strides, StageFits, HangsFit, WordsFit, Heard;
    OwnStrides(s, i, ok);
    var c, d := s.conns[i], ConnectStep(s, i, ok).conns[i];
    if InSetup(c.pc) {
      SetupStageKeeps(s, c, ok, d, p);
    } else if InBringup(c.pc) {
      BringupStageKeeps(s, c, ok, d, p);
    } else {
      LateStageKeeps(s, c, ok, d, p);
    }
    HangsKeep(s, c, ok, d, p);
    WordsKeep(s, c, ok, d, p);
  }

  // ---------- What a history leaves behind ----------

  /** The same in numbers. */
  predicate Counted(pc: ConnPc, trail: seq<Fact>) {
    match pc
    case Queued => |trail| == 0
    case Gate => |trail| == 0
    case Clear => |trail| == 1 && !Bad(trail)
    case Prepare => |trail| == 1 && !Bad(trail)
    case EarlyCheck => |trail| == 2 && !Bad(trail)
    case Import => |trail| == 3 && !Bad(trail)
    case Tunnel => |trail| == 4 && !Bad(trail)
    case Unimport => |trail| == 5 && Bad(trail)
    case Stash => |trail| == 5 && !Bad(trail)
    case StashCheck => |trail| == 5 && !Bad(trail)
    case WaitReady => |trail| == 6 && !Bad(trail)
    case Watch => |trail| == 7 && !Bad(trail)
    case LastCheck => |trail| == 7 && !Bad(trail)
    case Dial => |trail| == 8 && !Bad(trail)
    case Arm => |trail| == 9 && !Bad(trail)
    case Retire => 6 <= |trail| <= 9 && Bad(trail)
    case HangUp1(_) => 6 <= |trail| <= 9 && Bad(trail)
    case HangUp2(_) => 6 <= |trail| <= 9 && Bad(trail)
    case Reclaim(_) => 6 <= |trail| <= 9 && Bad(trail)
    case Failed => 1 <= |trail| <= 9 && Bad(trail)
    case SayStopped => 1 <= |trail| <= 9 && Bad(trail)
    case SayFailure => 1 <= |trail| <= 9 && Bad(trail)
    case Leave => 1 <= |trail| <= 9 && (!Bad(trail) ==> |trail| == 9)
    case Done => 1 <= |trail| <= 9 && (!Bad(trail) ==> |trail| == 9)
  }

  lemma StageCounts(pc: ConnPc, p: Past)
    requires StageFits(pc, p)
    ensures Counted(pc, p.trail)
  {}

  predicate Asks(pc: ConnPc) {
    pc.Gate? || pc.Prepare? || pc.EarlyCheck? || pc.Import? || pc.Tunnel? || pc.StashCheck? || pc.WaitReady?
    || pc.LastCheck? || pc.Dial?
  }

  /** What hearing an answer changes in a history. */
  predicate Hears(pc: ConnPc, ok: bool, p: Past, q: Past) {
    && |q.trail| == |p.trail| + (if Asks(pc) then 1 else 0)
    && (!Asks(pc) ==> q.trail == p.trail)
    && q.hangs == (if pc.HangUp1? || pc.HangUp2? then p.hangs + [ok] else p.hangs)
    && q.lostSession == p.lostSession && q.lostConfig == p.lostConfig
  }

  lemma HeardHears(s: State, pc: ConnPc, ok: bool, p: Past)
    ensures Hears(pc, ok, p, Heard(s, pc, ok, p))
  {}

  /** Connect `i`, or what it will be when it is called. */
  function Self(s: State, i: nat): Conn { if i < |s.conns| then s.conns[i] else Conn(Queued, FRESH, []) }

  /** Each kind of task is there exactly from its answer on, and session.Connect was called exactly if it was asked. */
  predicate StartsFit(s: State, i: nat, p: Past) {
    && (i in s.backend.dialled <==> |p.trail| == 9)
    && (Handle(i, Listener) in s.backend.spawned <==> Good(p.trail) >= 7 && !Self(s, i).pc.Watch?)
    && (Handle(i, Attention) in s.backend.spawned <==> Good(p.trail) >= 7 && !Self(s, i).pc.Watch?)
    && (Handle(i, Poller) in s.backend.spawned <==> Good(p.trail) >= 9 && !Self(s, i).pc.Arm?)
    && (Handle(i, Stats) in s.backend.spawned <==> Good(p.trail) >= 9 && !Self(s, i).pc.Arm?)
  }

  /** Still in the hands of the call, or in the record where the call left it. */
  predicate Kept(s: State, i: nat, p: Past) {
    !Self(s, i).pc.Done? || Bad(p.trail) || s.record.path == Some(i)
  }

  /** A task is aborted exactly when the call that spawned it has failed. */
  predicate AbortsFit(s: State, i: nat, p: Past) {
    forall kind :: Handle(i, kind) in s.backend.aborted <==>
      Handle(i, kind) in s.backend.spawned && Bad(p.trail) && !Self(s, i).pc.Retire?
  }

  /** What the call asked of the backend on its way out, and the flag it set for its tasks. */
  predicate ClearsFit(s: State, i: nat, p: Past) {
    var pc, shared := Self(s, i).pc, Self(s, i).session.shared;
    && (shared.disconnectRequested <==> Bad(p.trail) && |p.trail| >= 6 && !pc.Retire?)
    && (shared.hungUp <==> p.hangs != [])
    && (i in s.backend.givenUp <==> p.hangs == [false, false])
    && (i in s.backend.removed <==> Bad(p.trail) && |p.trail| >= 5 && !pc.Unimport? && !InCleanup(pc))
  }

  predicate HungUpWell(p: Past) { p.hangs != [] && p.hangs[|p.hangs| - 1] }

  /** What is left at the backend, short of what the backend drops by itself. */
  predicate RestFits(s: State, i: nat, p: Past) {
    && (i in s.backend.live ==> Good(p.trail) >= 5 && !HungUpWell(p))
    && (Good(p.trail) >= 5 && !HungUpWell(p) && !p.lostSession ==> i in s.backend.live)
    && (i in s.backend.configs ==> Good(p.trail) >= 4)
    && (Good(p.trail) >= 4 && i !in s.backend.removed && !p.lostConfig ==> i in s.backend.configs)
  }

  predicate InRecord(pc: ConnPc, p: Past) {
    InBringup(pc) || pc.Retire? || ((pc.Leave? || pc.Done?) && !Bad(p.trail))
  }

  /** The record holds the session of `i`, its config, its guards, its credentials and all of its tasks. */
  predicate RecordHolds(s: State, i: nat) {
    && s.record.path == Some(i) && s.record.config == Some(i) && s.record.arcs == Some(i) && s.record.secrets
    && (forall h :: h in s.record.tasks ==> h in s.backend.spawned && h.session == i)
    && (forall h :: h in s.backend.spawned && h.session == i ==> h in s.record.tasks)
  }

  predicate RecordFits(s: State, i: nat, p: Past) {
    var pc := Self(s, i).pc;
    && (InRecord(pc, p) && !pc.Done? ==> RecordHolds(s, i))
    && (s.record.path == Some(i) ==> InRecord(pc, p) && RecordHolds(s, i))
    && (s.record.arcs == Some(i) ==> Good(p.trail) >= 5 && !pc.Stash?)
  }

  /** A Disconnect that has nothing of `i` in hand. */
  predicate Ignores(pc: DiscPc, i: nat) {
    match pc
    case Abort(path, config, tasks) => path != Some(i) && config != Some(i) && forall h :: h in tasks ==> h.session != i
    case End1(path, config) => path != Some(i) && config != Some(i)
    case End2(path, config) => path != Some(i) && config != Some(i)
    case Drop(config) => config != Some(i)
    case _ => true
  }

  /** Only a Connect that has succeeded is ever taken down by a Disconnect. */
  predicate NamesFit(s: State, i: nat, p: Past) {
    !Self(s, i).pc.Done? || Bad(p.trail) ==> forall j :: 0 <= j < |s.discs| ==> Ignores(s.discs[j], i)
  }

  lemma NothingStarted(s: State, i: nat, p: Past)
    requires StartsFit(s, i, p) && Good(p.trail) < 7
    ensures forall h :: h in s.backend.spawned ==> h.session != i
  {
    forall h | h in s.backend.spawned ensures h.session != i {
      match h.kind {
        case Listener =>
        case Attention =>
        case Poller =>
        case Stats =>
      }
    }
  }

  // ----- A step of its own -----

  predicate Placed(s: State, i: nat)
    requires i < |s.conns|
  {
    Holds(s.conns[i].pc) ==> ConnFits(s, i)
  }

  predicate OwnMove(s: State, t: State, i: nat, ok: bool, p: Past, q: Past) {
    && i < |s.conns| && i < |t.conns|
    && Counted(s.conns[i].pc, p.trail) && Counted(t.conns[i].pc, q.trail) && Hears(s.conns[i].pc, ok, p, q)
  }

  lemma OwnSetupStarts(s: State, i: nat, ok: bool, p: Past, q: Past)
    requires i < |s.conns| && InSetup(s.conns[i].pc)
    requires OwnMove(s, Setup(s, i, ok), i, ok, p, q)
    requires StartsFit(s, i, p)
    ensures StartsFit(Setup(s, i, ok), i, q)
  {
    hide Bad;
  }

  lemma OwnBringupStarts(s: State, i: nat, ok: bool, p: Past, q: Past)
    requires i < |s.conns| && InBringup(s.conns[i].pc)
    requires OwnMove(s, Bringup(s, i, ok), i, ok, p, q)
    requires StartsFit(s, i, p)
    ensures StartsFit(Bringup(s, i, ok), i, q)
  {
    hide Bad;
  }

  lemma OwnCleanupStarts(s: State, i: nat, ok: bool, p: Past, q: Past)
    requires i < |s.conns| && InCleanup(s.conns[i].pc)
    requires OwnMove(s, Cleanup(s, i, ok), i, ok, p, q)
    requires StartsFit(s, i, p)
    ensures StartsFit(Cleanup(s, i, ok), i, q)
  {
    hide Bad;
  }

  lemma OwnReportStarts(s: State, i: nat, ok: bool, p: Past, q: Past)
    requires i < |s.conns| && !InSetup(s.conns[i].pc) && !InBringup(s.conns[i].pc) && !InCleanup(s.conns[i].pc)
    requires OwnMove(s, Report(s, i), i, ok, p, q)
    requires StartsFit(s, i, p)
    ensures StartsFit(Report(s, i), i, q)
  {
    hide Bad;
  }

  lemma OwnSetupAborts(s: State, i: nat, ok: bool, p: Past, q: Past)
    requires i < |s.conns| && InSetup(s.conns[i].pc)
    requires OwnMove(s, Setup(s, i, ok), i, ok, p, q)
    requires AbortsFit(s, i, p) && StartsFit(s, i, p) && RecordFits(s, i, p)
    ensures AbortsFit(Setup(s, i, ok), i, q)
  {
    hide Bad;
    NothingStarted(s, i, p);
  }

  lemma OwnBringupAborts(s: State, i: nat, ok: bool, p: Past, q: Past)
    requires i < |s.conns| && InBringup(s.conns[i].pc)
    requires OwnMove(s, Bringup(s, i, ok), i, ok, p, q)
    requires AbortsFit(s, i, p) && StartsFit(s, i, p) && RecordFits(s, i, p)
    ensures AbortsFit(Bringup(s, i, ok), i, q)
  {
    hide Bad;
  }

  lemma OwnCleanupAborts(s: State, i: nat, ok: bool, p: Past, q: Past)
    requires i < |s.conns| && InCleanup(s.conns[i].pc)
    requires OwnMove(s, Cleanup(s, i, ok), i, ok, p, q)
    requires AbortsFit(s, i, p) && StartsFit(s, i, p) && RecordFits(s, i, p)
    ensures AbortsFit(Cleanup(s, i, ok), i, q)
  {
    hide Bad;
  }

  lemma OwnReportAborts(s: State, i: nat, ok: bool, p: Past, q: Past)
    requires i < |s.conns| && !InSetup(s.conns[i].pc) && !InBringup(s.conns[i].pc) && !InCleanup(s.conns[i].pc)
    requires OwnMove(s, Report(s, i), i, ok, p, q)
    requires AbortsFit(s, i, p) && StartsFit(s, i, p) && RecordFits(s, i, p)
    ensures AbortsFit(Report(s, i), i, q)
  {
    hide Bad;
  }

  lemma OwnSetupClears(s: State, i: nat, ok: bool, p: Past, q: Past)
    requires i < |s.conns| && InSetup(s.conns[i].pc)
    requires OwnMove(s, Setup(s, i, ok), i, ok, p, q)
    requires ClearsFit(s, i, p) && RecordFits(s, i, p) && Placed(s, i) && HangsFit(s.conns[i].pc, p)
    ensures ClearsFit(Setup(s, i, ok), i, q)
  {
    hide Bad;
  }

  lemma OwnBringupClears(s: State, i: nat, ok: bool, p: Past, q: Past)
    requires i < |s.conns| && InBringup(s.conns[i].pc)
    requires OwnMove(s, Bringup(s, i, ok), i, ok, p, q)
    requires ClearsFit(s, i, p) && RecordFits(s, i, p) && Placed(s, i) && HangsFit(s.conns[i].pc, p)
    ensures ClearsFit(Bringup(s, i, ok), i, q)
  {
    hide Bad;
  }

  lemma OwnCleanupClears(s: State, i: nat, ok: bool, p: Past, q: Past)
    requires i < |s.conns| && InCleanup(s.conns[i].pc)
    requires OwnMove(s, Cleanup(s, i, ok), i, ok, p, q)
    requires ClearsFit(s, i, p) && RecordFits(s, i, p) && Placed(s, i) && HangsFit(s.conns[i].pc, p)
    ensures ClearsFit(Cleanup(s, i, ok), i, q)
  {
    hide Bad;
    if s.conns[i].pc.HangUp1? {
      assert p.hangs + [ok] == [ok];
    }
    if s.conns[i].pc.HangUp2? {
      assert p.hangs + [ok] == [false, ok];
    }
  }

  lemma OwnReportClears(s: State, i: nat, ok: bool, p: Past, q: Past)
    requires i < |s.conns| && !InSetup(s.conns[i].pc) && !InBringup(s.conns[i].pc) && !InCleanup(s.conns[i].pc)
    requires OwnMove(s, Report(s, i), i, ok, p, q)
    requires ClearsFit(s, i, p) && RecordFits(s, i, p) && Placed(s, i) && HangsFit(s.conns[i].pc, p)
    ensures ClearsFit(Report(s, i), i, q)
  {
    hide Bad;
  }

  lemma OwnSetupRest(s: State, i: nat, ok: bool, p: Past, q: Past)
    requires i < |s.conns| && InSetup(s.conns[i].pc)
    requires OwnMove(s, Setup(s, i, ok), i, ok, p, q)
    requires RestFits(s, i, p) && RecordFits(s, i, p) && ClearsFit(s, i, p) && HangsFit(s.conns[i].pc, p)
    requires Placed(s, i)
    ensures RestFits(Setup(s, i, ok), i, q)
  {
    hide Bad, SpawnWatchers, SpawnPoller;
  }

  lemma OwnBringupRest(s: State, i: nat, ok: bool, p: Past, q: Past)
    requires i < |s.conns| && InBringup(s.conns[i].pc)
    requires OwnMove(s, Bringup(s, i, ok), i, ok, p, q)
    requires RestFits(s, i, p) && RecordFits(s, i, p) && ClearsFit(s, i, p) && HangsFit(s.conns[i].pc, p)
    requires Placed(s, i)
    ensures RestFits(Bringup(s, i, ok), i, q)
  {
    hide Bad, SpawnWatchers, SpawnPoller;
  }

  lemma OwnCleanupRest(s: State, i: nat, ok: bool, p: Past, q: Past)
    requires i < |s.conns| && InCleanup(s.conns[i].pc)
    requires OwnMove(s, Cleanup(s, i, ok), i, ok, p, q)
    requires RestFits(s, i, p) && RecordFits(s, i, p) && ClearsFit(s, i, p) && HangsFit(s.conns[i].pc, p)
    requires Placed(s, i)
    ensures RestFits(Cleanup(s, i, ok), i, q)
  {
    hide Bad, SpawnWatchers, SpawnPoller;
  }

  lemma OwnReportRest(s: State, i: nat, ok: bool, p: Past, q: Past)
    requires i < |s.conns| && !InSetup(s.conns[i].pc) && !InBringup(s.conns[i].pc) && !InCleanup(s.conns[i].pc)
    requires OwnMove(s, Report(s, i), i, ok, p, q)
    requires RestFits(s, i, p) && RecordFits(s, i, p) && ClearsFit(s, i, p) && HangsFit(s.conns[i].pc, p)
    requires Placed(s, i)
    ensures RestFits(Report(s, i), i, q)
  {
    hide Bad, SpawnWatchers, SpawnPoller;
  }

  lemma OwnSetupRecord(s: State, i: nat, ok: bool, p: Past, q: Past)
    requires i < |s.conns| && InSetup(s.conns[i].pc)
    requires OwnMove(s, Setup(s, i, ok), i, ok, p, q)
    requires RecordFits(s, i, p) && StartsFit(s, i, p) && Placed(s, i) && RecordIsWhole(s)
    ensures RecordFits(Setup(s, i, ok), i, q)
  {
    hide Bad, SpawnWatchers, SpawnPoller;
    NothingStarted(s, i, p);
  }

  lemma OwnBringupRecord(s: State, i: nat, ok: bool, p: Past, q: Past)
    requires i < |s.conns| && InBringup(s.conns[i].pc)
    requires OwnMove(s, Bringup(s, i, ok), i, ok, p, q)
    requires RecordFits(s, i, p) && StartsFit(s, i, p) && Placed(s, i) && RecordIsWhole(s)
    ensures RecordFits(Bringup(s, i, ok), i, q)
  {
    hide Bad, SpawnWatchers, SpawnPoller;
  }

  lemma OwnCleanupRecord(s: State, i: nat, ok: bool, p: Past, q: Past)
    requires i < |s.conns| && InCleanup(s.conns[i].pc)
    requires OwnMove(s, Cleanup(s, i, ok), i, ok, p, q)
    requires RecordFits(s, i, p) && StartsFit(s, i, p) && Placed(s, i) && RecordIsWhole(s)
    ensures RecordFits(Cleanup(s, i, ok), i, q)
  {
    hide Bad, SpawnWatchers, SpawnPoller;
  }

  lemma OwnReportRecord(s: State, i: nat, ok: bool, p: Past, q: Past)
    requires i < |s.conns| && !InSetup(s.conns[i].pc) && !InBringup(s.conns[i].pc) && !InCleanup(s.conns[i].pc)
    requires OwnMove(s, Report(s, i), i, ok, p, q)
    requires RecordFits(s, i, p) && StartsFit(s, i, p) && Placed(s, i) && RecordIsWhole(s)
    ensures RecordFits(Report(s, i), i, q)
  {
    hide Bad, SpawnWatchers, SpawnPoller;
  }

  // ----- A step of somebody else -----

  /** Nothing that belongs to `i` is stopped, given up or flagged, and nothing of it is lost. */
  predicate SameFate(s: State, t: State, i: nat) {
    && (forall kind :: Handle(i, kind) in t.backend.aborted <==> Handle(i, kind) in s.backend.aborted)
    && (i in t.backend.removed <==> i in s.backend.removed)
    && (i in t.backend.givenUp <==> i in s.backend.givenUp)
    && Self(t, i).session.shared.disconnectRequested == Self(s, i).session.shared.disconnectRequested
    && Self(t, i).session.shared.hungUp == Self(s, i).session.shared.hungUp
  }

  predicate SameRest(s: State, t: State, i: nat) {
    && (i in t.backend.live <==> i in s.backend.live)
    && (i in t.backend.configs <==> i in s.backend.configs)
  }

  /** `i` itself did nothing, nothing was started for it, and the record only ever lets go of it. */
  predicate SameSteps(s: State, t: State, i: nat) {
    && Self(t, i).pc == Self(s, i).pc && Self(t, i).said == Self(s, i).said
    && (i in t.backend.dialled <==> i in s.backend.dialled)
    && (forall kind :: Handle(i, kind) in t.backend.spawned <==> Handle(i, kind) in s.backend.spawned)
    && (t.record.path == Some(i) ==>
          && s.record.path == Some(i) && t.record.config == s.record.config && t.record.arcs == s.record.arcs
          && t.record.tasks == s.record.tasks && (s.record.secrets ==> t.record.secrets))
    && (t.record.arcs == Some(i) ==> s.record.arcs == Some(i))
    && (s.lock == ByConnect(i) && s.record.path == Some(i) ==> t.record.path == Some(i))
  }

  /** Another Connect `k` in its place in the lock. */
  predicate Other(s: State, k: nat, i: nat) {
    && k != i && ConnReady(s, k) && (Holds(s.conns[k].pc) ==> ConnFits(s, k)) && RecordIsWhole(s)
  }

  lemma SetupSparesOthers(s: State, k: nat, ok: bool, i: nat)
    requires Other(s, k, i) && InSetup(s.conns[k].pc)
    ensures SameFate(s, Setup(s, k, ok), i) && SameRest(s, Setup(s, k, ok), i)
  {
  }

  lemma SetupLeavesOthers(s: State, k: nat, ok: bool, i: nat)
    requires Other(s, k, i) && InSetup(s.conns[k].pc)
    ensures SameSteps(s, Setup(s, k, ok), i)
  {
  }

  lemma BringupSparesOthers(s: State, k: nat, ok: bool, i: nat)
    requires Other(s, k, i) && InBringup(s.conns[k].pc)
    ensures SameFate(s, Bringup(s, k, ok), i) && SameRest(s, Bringup(s, k, ok), i)
  {
    hide SpawnWatchers, SpawnPoller;
  }

  lemma BringupLeavesOthers(s: State, k: nat, ok: bool, i: nat)
    requires Other(s, k, i) && InBringup(s.conns[k].pc)
    ensures SameSteps(s, Bringup(s, k, ok), i)
  {
    hide SpawnWatchers, SpawnPoller;
  }

  lemma CleanupSparesOthers(s: State, k: nat, ok: bool, i: nat)
    requires Other(s, k, i) && InCleanup(s.conns[k].pc)
    ensures SameFate(s, Cleanup(s, k, ok), i) && SameRest(s, Cleanup(s, k, ok), i)
  {
  }

  lemma CleanupLeavesOthers(s: State, k: nat, ok: bool, i: nat)
    requires Other(s, k, i) && InCleanup(s.conns[k].pc)
    ensures SameSteps(s, Cleanup(s, k, ok), i)
  {
  }

  lemma ReportSparesOthers(s: State, k: nat, i: nat)
    requires Other(s, k, i) && !InSetup(s.conns[k].pc) && !InBringup(s.conns[k].pc) && !InCleanup(s.conns[k].pc)
    ensures SameFate(s, Report(s, k), i) && SameRest(s, Report(s, k), i)
  {
  }

  lemma ReportLeavesOthers(s: State, k: nat, i: nat)
    requires Other(s, k, i) && !InSetup(s.conns[k].pc) && !InBringup(s.conns[k].pc) && !InCleanup(s.conns[k].pc)
    ensures SameSteps(s, Report(s, k), i)
  {
  }

  /** A Disconnect in its place in the lock. */
  predicate OtherDisc(s: State, j: nat) {
    && DiscReady(s, j) && (DiscHolds(s.discs[j]) ==> DiscFits(s, s.discs[j])) && RecordIsWhole(s)
  }

  /** At a Disconnect that takes the record, `i` must not be in it; nor must it be in its hands. */
  predicate Untaken(s: State, j: nat, i: nat)
    requires j < |s.discs|
  {
    && Ignores(s.discs[j], i)
    && (s.discs[j].Take? && s.record.arcs == Some(i) ==> Self(s, i).session.shared.disconnectRequested)
  }

  lemma EntrySparesOthers(s: State, j: nat, i: nat)
    requires OtherDisc(s, j) && InEntry(s.discs[j]) && Untaken(s, j, i)
    ensures SameFate(s, Entry(s, j), i) && SameRest(s, Entry(s, j), i)
  {}

  lemma TearDownSparesFate(s: State, j: nat, ok: bool, i: nat)
    requires OtherDisc(s, j) && Untaken(s, j, i)
    ensures SameFate(s, TearDown(s, j, ok), i)
  {
    match s.discs[j] {
      case Abort(_, _, _) =>
      case End1(_, _) =>
      case End2(_, _) =>
      case Drop(_) =>
      case _ =>
    }
  }

  lemma TearDownSparesRest(s: State, j: nat, ok: bool, i: nat)
    requires OtherDisc(s, j) && Untaken(s, j, i)
    ensures SameRest(s, TearDown(s, j, ok), i)
  {
    match s.discs[j] {
      case Abort(_, _, _) =>
      case End1(_, _) =>
      case End2(_, _) =>
      case Drop(_) =>
      case _ =>
    }
  }

  lemma EntryLeavesOthers(s: State, j: nat, i: nat)
    requires OtherDisc(s, j) && (s.lock == ByConnect(i) ==> i < |s.conns|)
    ensures SameSteps(s, Entry(s, j), i)
  {}

  lemma TearDownLeavesOthers(s: State, j: nat, ok: bool, i: nat)
    requires OtherDisc(s, j)
    ensures SameSteps(s, TearDown(s, j, ok), i)
  {}

  /** Whom a Disconnect has in hand it took from the record. */
  lemma HandsFit(s: State, j: nat, ok: bool, i: nat)
    requires OtherDisc(s, j) && Ignores(s.discs[j], i) && (s.discs[j].Take? ==> s.record.path != Some(i))
    ensures j < |DisconnectStep(s, j, ok).discs| && Ignores(DisconnectStep(s, j, ok).discs[j], i)
  {}

  // ----- Every step -----

  predicate Trace(s: State, i: nat, p: Past) {
    && CourseFits(Self(s, i), p) && StartsFit(s, i, p) && RecordFits(s, i, p) && NamesFit(s, i, p)
    && (Kept(s, i, p) ==> AbortsFit(s, i, p) && ClearsFit(s, i, p) && RestFits(s, i, p))
  }

  lemma OwnMoves(s: State, i: nat, ok: bool, p: Past)
    requires i < |s.conns| && CourseFits(s.conns[i], p)
    ensures OwnMove(s, ConnectStep(s, i, ok), i, ok, p, Heard(s, s.conns[i].pc, ok, p))
    ensures CourseFits(ConnectStep(s, i, ok).conns[i], Heard(s, s.conns[i].pc, ok, p))
  {
    hide ConnectStep, Heard, StageFits, HangsFit, WordsFit, Counted, Hears;
    OwnCourse(s, i, ok, p);
    StageCounts(s.conns[i].pc, p);
    StageCounts(ConnectStep(s, i, ok).conns[i].pc, Heard(s, s.conns[i].pc, ok, p));
    HeardHears(s, s.conns[i].pc, ok, p);
  }

  lemma OwnFootprint(s: State, i: nat, ok: bool, p: Past, q: Past)
    requires i < |s.conns| && !s.conns[i].pc.Done? && Trace(s, i, p)
    requires Placed(s, i) && RecordIsWhole(s)
    requires OwnMove(s, ConnectStep(s, i, ok), i, ok, p, q)
    ensures var t := ConnectStep(s, i, ok); StartsFit(t, i, q) && RecordFits(t, i, q)
    ensures var t := ConnectStep(s, i, ok); AbortsFit(t, i, q) && ClearsFit(t, i, q) && RestFits(t, i, q)
  {
    hide Setup, Bringup, Cleanup, Report, StartsFit, RecordFits, AbortsFit, ClearsFit, RestFits, OwnMove, Placed,
         StageFits, HangsFit, WordsFit, InSetup, InBringup, InCleanup, RecordIsWhole, NamesFit;
    if InSetup(s.conns[i].pc) {
      OwnSetupStarts(s, i, ok, p, q);
      OwnSetupRecord(s, i, ok, p, q);
      OwnSetupAborts(s, i, ok, p, q);
      OwnSetupClears(s, i, ok, p, q);
      OwnSetupRest(s, i, ok, p, q);
    } else if InBringup(s.conns[i].pc) {
      OwnBringupStarts(s, i, ok, p, q);
      OwnBringupRecord(s, i, ok, p, q);
      OwnBringupAborts(s, i, ok, p, q);
      OwnBringupClears(s, i, ok, p, q);
      OwnBringupRest(s, i, ok, p, q);
    } else if InCleanup(s.conns[i].pc) {
      OwnCleanupStarts(s, i, ok, p, q);
      OwnCleanupRecord(s, i, ok, p, q);
      OwnCleanupAborts(s, i, ok, p, q);
      OwnCleanupClears(s, i, ok, p, q);
      OwnCleanupRest(s, i, ok, p, q);
    } else {
      OwnReportStarts(s, i, ok, p, q);
      OwnReportRecord(s, i, ok, p, q);
      OwnReportAborts(s, i, ok, p, q);
      OwnReportClears(s, i, ok, p, q);
      OwnReportRest(s, i, ok, p, q);
    }
  }

  lemma OwnNames(s: State, t: State, i: nat, p: Past, q: Past)
    requires NamesFit(s, i, p) && !Self(s, i).pc.Done? && t.discs == s.discs
    ensures NamesFit(t, i, q)
  {}

  lemma ReturnedStays(s: State, i: nat, ok: bool, p: Past)
    requires i < |s.conns| && s.conns[i].pc.Done?
    ensures ConnectStep(s, i, ok) == s && Heard(s, s.conns[i].pc, ok, p) == p
  {}

  lemma PlaceOf(s: State, i: nat)
    requires Inv(s) && i < |s.conns|
    ensures RecordIsWhole(s) && ConnReady(s, i)
    ensures Placed(s, i)
  {
    hide Accounted, InHand, AllSound, ConnFits, DiscFits;
  }

  lemma OwnTrace(s: State, i: nat, ok: bool, p: Past)
    requires Inv(s) && i < |s.conns| && Trace(s, i, p)
    ensures Trace(ConnectStep(s, i, ok), i, Heard(s, s.conns[i].pc, ok, p))
  {
    hide Inv, ConnectStep, CourseFits, StartsFit, RecordFits, AbortsFit, ClearsFit, RestFits, NamesFit, Placed, Heard,
         RecordIsWhole;
    if s.conns[i].pc.Done? {
      ReturnedStays(s, i, ok, p);
    } else {
      PlaceOf(s, i);
      OwnMoves(s, i, ok, p);
      var q, t := Heard(s, s.conns[i].pc, ok, p), ConnectStep(s, i, ok);
      OwnFootprint(s, i, ok, p, q);
      ConnectLeavesDiscs(s, i, ok);
      OwnNames(s, t, i, p, q);
    }
  }

  /** The same history, with no more than a loss added. */
  predicate SameAnswers(p: Past, q: Past) {
    && q.trail == p.trail && q.hangs == p.hangs && q.flagSeen == p.flagSeen
    && (p.lostSession ==> q.lostSession) && (p.lostConfig ==> q.lostConfig)
  }

  predicate RestFollows(s: State, t: State, i: nat, q: Past) {
    && (i in t.backend.live ==> i in s.backend.live)
    && (i in s.backend.live && !q.lostSession ==> i in t.backend.live)
    && (i in t.backend.configs ==> i in s.backend.configs)
    && (i in s.backend.configs && !q.lostConfig ==> i in t.backend.configs)
  }

  /** What `i` holds the lock for it holds alone. */
  predicate Guarded(s: State, i: nat) { i < |s.conns| ==> ConnReady(s, i) }

  lemma StartsFollow(s: State, t: State, i: nat, p: Past, q: Past)
    requires StartsFit(s, i, p) && SameSteps(s, t, i) && SameAnswers(p, q)
    ensures StartsFit(t, i, q)
  {}

  lemma CourseFollows(s: State, t: State, i: nat, p: Past, q: Past)
    requires CourseFits(Self(s, i), p) && SameSteps(s, t, i) && SameAnswers(p, q)
    ensures CourseFits(Self(t, i), q)
  {
    hide OnCourse, Fails;
  }

  lemma RecordFollows(s: State, t: State, i: nat, p: Past, q: Past)
    requires RecordFits(s, i, p) && SameSteps(s, t, i) && SameAnswers(p, q) && Guarded(s, i)
    ensures RecordFits(t, i, q)
  {
    hide Bad;
    forall h | h in t.backend.spawned && h.session == i ensures h in s.backend.spawned {
      assert h == Handle(i, h.kind);
    }
    forall h | h in s.backend.spawned && h.session == i ensures h in t.backend.spawned {
      assert h == Handle(i, h.kind);
    }
  }

  lemma FateFollows(s: State, t: State, i: nat, p: Past, q: Past)
    requires SameSteps(s, t, i) && SameFate(s, t, i) && RestFollows(s, t, i, q) && SameAnswers(p, q)
    requires AbortsFit(s, i, p) && ClearsFit(s, i, p) && RestFits(s, i, p)
    ensures AbortsFit(t, i, q) && ClearsFit(t, i, q) && RestFits(t, i, q)
  {
    hide Bad;
  }

  /** A step of somebody else leaves the trace of `i` as it is. */
  lemma TraceFollows(s: State, t: State, i: nat, p: Past, q: Past)
    requires Trace(s, i, p) && SameSteps(s, t, i) && SameAnswers(p, q) && Guarded(s, i) && NamesFit(t, i, q)
    requires Kept(t, i, q) ==> SameFate(s, t, i) && RestFollows(s, t, i, q)
    ensures Trace(t, i, q)
  {
    hide CourseFits, StartsFit, RecordFits, AbortsFit, ClearsFit, RestFits, NamesFit, SameFate, RestFollows, Guarded;
    CourseFollows(s, t, i, p, q);
    StartsFollow(s, t, i, p, q);
    RecordFollows(s, t, i, p, q);
    if Kept(t, i, q) {
      FateFollows(s, t, i, p, q);
    }
  }

  lemma GuardOf(s: State, i: nat)
    requires Inv(s)
    ensures Guarded(s, i)
  {}

  lemma SameNames(s: State, t: State, i: nat, p: Past)
    requires NamesFit(s, i, p) && SameSteps(s, t, i) && t.discs == s.discs
    ensures NamesFit(t, i, p)
  {}

  lemma ConnectTrace(s: State, k: nat, ok: bool, i: nat, p: Past)
    requires Inv(s) && Trace(s, i, p) && k < |s.conns| && k != i
    ensures Trace(ConnectStep(s, k, ok), i, p)
  {
    hide Inv, Trace, Setup, Bringup, Cleanup, Report, SameSteps, SameFate, InSetup, InBringup, InCleanup, ConnFits,
         RecordIsWhole;
    PlaceOf(s, k);
    GuardOf(s, i);
    var t := ConnectStep(s, k, ok);
    if InSetup(s.conns[k].pc) {
      SetupSparesOthers(s, k, ok, i);
      SetupLeavesOthers(s, k, ok, i);
    } else if InBringup(s.conns[k].pc) {
      BringupSparesOthers(s, k, ok, i);
      BringupLeavesOthers(s, k, ok, i);
    } else if InCleanup(s.conns[k].pc) {
      CleanupSparesOthers(s, k, ok, i);
      CleanupLeavesOthers(s, k, ok, i);
    } else {
      ReportSparesOthers(s, k, i);
      ReportLeavesOthers(s, k, i);
    }
    ConnectLeavesDiscs(s, k, ok);
    TraceNames(s, t, i, p);
    TraceFollows(s, t, i, p, p);
  }

  lemma TraceNames(s: State, t: State, i: nat, p: Past)
    requires Trace(s, i, p) && SameSteps(s, t, i) && t.discs == s.discs
    ensures NamesFit(t, i, p)
  {
    hide CourseFits, StartsFit, RecordFits, AbortsFit, ClearsFit, RestFits, Kept;
    SameNames(s, t, i, p);
  }

  lemma DiscPlaceOf(s: State, j: nat)
    requires Inv(s) && j < |s.discs|
    ensures OtherDisc(s, j)
  {
    hide Accounted, InHand, AllSound, ConnFits, DiscFits;
  }

  /** Nobody else holds the lock while a Disconnect does. */
  lemma AloneInLock(s: State, j: nat, i: nat)
    requires Inv(s) && j < |s.discs| && DiscHolds(s.discs[j])
    ensures Self(s, i).pc.Queued? || Self(s, i).pc.Done?
  {
    hide Accounted, InHand, AllSound, HolderFits, RecordIsWhole;
  }

  /** What the record says of `i` while a Disconnect holds the lock. */
  lemma RecordOfReturned(s: State, i: nat, p: Past)
    requires Trace(s, i, p) && (Self(s, i).pc.Queued? || Self(s, i).pc.Done?)
    ensures s.record.path == Some(i) ==> Self(s, i).pc.Done? && !Bad(p.trail)
    ensures s.record.arcs == Some(i) && Bad(p.trail) ==> Self(s, i).session.shared.disconnectRequested
    ensures s.record.arcs == Some(i) ==> Self(s, i).pc.Done?
  {
    hide AbortsFit, RestFits, NamesFit, StartsFit;
    StageCounts(Self(s, i).pc, p);
  }

  lemma DiscHandsKeep(s: State, j: nat, ok: bool, i: nat, p: Past)
    requires Inv(s) && Trace(s, i, p) && j < |s.discs|
    requires !Self(s, i).pc.Done? || Bad(p.trail)
    ensures j < |DisconnectStep(s, j, ok).discs|
    ensures Untaken(s, j, i) && Ignores(DisconnectStep(s, j, ok).discs[j], i)
  {
    hide Inv, DisconnectStep, CourseFits, StartsFit, RecordFits, AbortsFit, ClearsFit, RestFits, Kept;
    DiscPlaceOf(s, j);
    if s.discs[j].Take? {
      AloneInLock(s, j, i);
      RecordOfReturned(s, i, p);
    }
    HandsFit(s, j, ok, i);
  }

  /** A Disconnect takes the record of a Connect that returned only by emptying it. */
  lemma DiscLosesHold(s: State, j: nat, ok: bool, i: nat, p: Past)
    requires OtherDisc(s, j) && s.record.path == Some(i) && SameSteps(s, DisconnectStep(s, j, ok), i)
    requires DisconnectStep(s, j, ok).record.path == Some(i)
    ensures Untaken(s, j, i)
  {}

  lemma DisconnectTrace(s: State, j: nat, ok: bool, i: nat, p: Past)
    requires Inv(s) && Trace(s, i, p) && j < |s.discs|
    ensures Trace(DisconnectStep(s, j, ok), i, p)
  {
    hide Inv, Trace, Entry, TearDown, SameFate, InEntry, Untaken, OtherDisc, Ignores, Bad;
    var t := DisconnectStep(s, j, ok);
    DiscPlaceOf(s, j);
    GuardOf(s, i);
    DiscLeavesOthers(s, j, ok, i);
    if Kept(t, i, p) {
      if Self(s, i).pc.Done? && !Bad(p.trail) {
        DiscLosesHold(s, j, ok, i, p);
      } else {
        DiscHandsKeep(s, j, ok, i, p);
      }
      DiscSparesOthers(s, j, ok, i);
    }
    DiscNames(s, j, ok, i, p);
    TraceFollows(s, t, i, p, p);
  }

  lemma DiscLeavesOthers(s: State, j: nat, ok: bool, i: nat)
    requires OtherDisc(s, j) && Guarded(s, i)
    ensures SameSteps(s, DisconnectStep(s, j, ok), i)
  {
    hide Entry, TearDown, SameSteps;
    if InEntry(s.discs[j]) {
      EntryLeavesOthers(s, j, i);
    } else {
      TearDownLeavesOthers(s, j, ok, i);
    }
  }

  lemma DiscSparesOthers(s: State, j: nat, ok: bool, i: nat)
    requires OtherDisc(s, j) && Untaken(s, j, i)
    ensures SameFate(s, DisconnectStep(s, j, ok), i) && SameRest(s, DisconnectStep(s, j, ok), i)
  {
    hide Entry, TearDown, SameFate, SameRest, Untaken;
    if InEntry(s.discs[j]) {
      EntrySparesOthers(s, j, i);
    } else {
      TearDownSparesFate(s, j, ok, i);
      TearDownSparesRest(s, j, ok, i);
    }
  }

  lemma DiscNames(s: State, j: nat, ok: bool, i: nat, p: Past)
    requires Inv(s) && Trace(s, i, p) && j < |s.discs| && SameSteps(s, DisconnectStep(s, j, ok), i)
    ensures NamesFit(DisconnectStep(s, j, ok), i, p)
  {
    hide Inv, DisconnectStep, Ignores, CourseFits, StartsFit, RecordFits, AbortsFit, ClearsFit, RestFits, Kept,
         DiscHolds, Untaken;
    if !Self(s, i).pc.Done? || Bad(p.trail) {
      DiscHandsKeep(s, j, ok, i, p);
      DisconnectMovesItself(s, j, ok);
    }
  }

  lemma TaskLeavesOthers(s: State, k: nat, kind: Kind, e: Event, i: nat, p: Past)
    requires k < |s.conns|
    ensures var t := Next(s, SessionTask(k, kind, e));
      SameSteps(s, t, i) && SameFate(s, t, i) && RestFollows(s, t, i, p)
  {
    hide TaskStep;
    StepLeavesFlags(s.conns[k].session, kind, e);
  }

  lemma TaskTrace(s: State, k: nat, kind: Kind, e: Event, i: nat, p: Past)
    requires Inv(s) && Trace(s, i, p) && k < |s.conns|
    ensures Trace(Next(s, SessionTask(k, kind, e)), i, p)
  {
    var t := Next(s, SessionTask(k, kind, e));
    TaskLeavesOthers(s, k, kind, e, i, p);
    hide Inv, Trace, Next, SameSteps, SameFate, RestFollows;
    TraceNames(s, t, i, p);
    GuardOf(s, i);
    TraceFollows(s, t, i, p, p);
  }

  lemma ArrivalLeavesOthers(s: State, a: Action, i: nat, p: Past)
    requires a.CallConnect? || a.CallDisconnect? || a.NewSecrets?
    ensures var t := Next(s, a); SameSteps(s, t, i) && SameFate(s, t, i) && RestFollows(s, t, i, p)
  {}

  lemma ArrivalTrace(s: State, a: Action, i: nat, p: Past)
    requires Inv(s) && Trace(s, i, p) && (a.CallConnect? || a.CallDisconnect? || a.NewSecrets?)
    ensures Trace(Next(s, a), i, p)
  {
    var t := Next(s, a);
    ArrivalLeavesOthers(s, a, i, p);
    assert NamesFit(t, i, p) by {
      hide CourseFits, StartsFit, RecordFits, AbortsFit, ClearsFit, RestFits, Kept, SameFate, RestFollows;
    }
    hide Inv, Trace, Next, SameSteps, SameFate, RestFollows;
    GuardOf(s, i);
    TraceFollows(s, t, i, p, p);
  }

  lemma LossLeavesOthers(s: State, a: Action, i: nat, p: Past)
    requires a.LoseSession? || a.LoseConfig?
    ensures var t := Next(s, a); SameSteps(s, t, i) && SameFate(s, t, i) && RestFollows(s, t, i, Witness(s, a, i, p))
  {}

  lemma LossTrace(s: State, a: Action, i: nat, p: Past)
    requires Inv(s) && Trace(s, i, p) && (a.LoseSession? || a.LoseConfig?)
    ensures Trace(Next(s, a), i, Witness(s, a, i, p))
  {
    var t, q := Next(s, a), Witness(s, a, i, p);
    LossLeavesOthers(s, a, i, p);
    hide Inv, Trace, Next, SameSteps, SameFate, RestFollows;
    TraceNames(s, t, i, p);
    GuardOf(s, i);
    TraceFollows(s, t, i, p, q);
  }

  lemma NextTrace(s: State, a: Action, i: nat, p: Past)
    requires Inv(s) && Trace(s, i, p)
    ensures Trace(Next(s, a), i, Witness(s, a, i, p))
  {
    hide Inv, Trace, ConnectStep, DisconnectStep, TaskStep, Heard;
    match a {
      case CallConnect => ArrivalTrace(s, a, i, p);
      case CallDisconnect => ArrivalTrace(s, a, i, p);
      case NewSecrets => ArrivalTrace(s, a, i, p);
      case ConnStep(k, ok) =>
        if k < |s.conns| {
          if k == i {
            OwnTrace(s, i, ok, p);
          } else {
            ConnectTrace(s, k, ok, i, p);
          }
        }
      case DiscStep(j, ok) => if j < |s.discs| { DisconnectTrace(s, j, ok, i, p); }
      case SessionTask(k, kind, e) => if k < |s.conns| { TaskTrace(s, k, kind, e, i, p); }
      case LoseSession(_) => LossTrace(s, a, i, p);
      case LoseConfig(_) => LossTrace(s, a, i, p);
    }
  }

  lemma TraceAtStart(i: nat)
    ensures Trace(START, i, UNASKED)
  {}

  /** After every run, what is there of a Connect is what its history leaves behind. */
  lemma {:induction false} TraceAfter(run: seq<Action>, i: nat)
    ensures Trace(After(START, run), i, PastAfter(run, i))
    decreases |run|
  {
    hide Next, Trace, Inv, Witness;
    if run == [] {
      TraceAtStart(i);
    } else {
      var rest := run[..|run| - 1];
      TraceAfter(rest, i);
      RunIsGood(rest);
      NextTrace(After(START, rest), run[|run| - 1], i, PastAfter(rest, i));
    }
  }
}
