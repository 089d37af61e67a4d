/**
  * Connect, Disconnect, NewSecrets and the background tasks as one step system.
  *
  * zbus runs every method call on a task of its own, so any number of calls is
  * in flight and any of them may take the next step.  A step is one access to
  * state that another step could touch, or one call of the backend, whose
  * outcome is the `ok` of the step.  A Connect creates at most one config and
  * one session, so both go by the number of the call.
  */
module Protocol {
  import opened Text
  import opened Sessions

  /** Where a Connect call stands; every place from `Gate` to `Leave` holds the coordinator's lock. */
  datatype ConnPc =
    | Queued
    | Gate
    | Clear
    | Prepare
    | EarlyCheck
    | Import
    | Tunnel
    | Unimport
    | Stash
    | StashCheck
    | WaitReady
    | Watch
    | LastCheck
    | Dial
    | Arm
    | Retire
    | HangUp1(config: Option<nat>)
    | HangUp2(config: Option<nat>)
    | Reclaim(config: Option<nat>)
    | Failed
    | SayStopped
    | SayFailure
    | Leave
    | Done

  /** Where a Disconnect call stands; every place from `Take` to `Exit` holds the lock. */
  datatype DiscPc =
    | Arrived
    | Parked
    | Take
    | Abort(path: Option<nat>, config: Option<nat>, tasks: set<Handle>)
    | End1(path: Option<nat>, config: Option<nat>)
    | End2(path: Option<nat>, config: Option<nat>)
    | Drop(config: Option<nat>)
    | TellStopped
    | Exit
    | Over

  datatype Handle = Handle(session: nat, kind: Kind)

  datatype Signal = StoppedSignal | FailureSignal

  /** One Connect call with the session it makes; `said` is what the call itself told NetworkManager. */
  datatype Conn = Conn(pc: ConnPc, session: Session, said: seq<Signal>)

  datatype Lock = Free | ByConnect(conn: nat) | ByDisconnect(disc: nat)

  /** The plugin's shared session record; `arcs` names the Connect whose guards it holds. */
  datatype Record = Record(
    config: Option<nat>,
    path: Option<nat>,
    arcs: Option<nat>,
    tasks: set<Handle>,
    secrets: bool)

  const EMPTY := Record(None, None, None, {}, false)

  /** The openvpn3 side, and the history of what the plugin asked of it. */
  datatype Backend = Backend(
    configs: set<nat>,
    live: set<nat>,
    removed: set<nat>,
    givenUp: set<nat>,
    dialled: set<nat>,
    spawned: set<Handle>,
    aborted: set<Handle>)

  datatype State = State(
    lock: Lock,
    teardown: bool,
    record: Record,
    conns: seq<Conn>,
    discs: seq<DiscPc>,
    backend: Backend)

  const START := State(Free, false, EMPTY, [], [], Backend({}, {}, {}, {}, {}, {}, {}))

  datatype Action =
    | CallConnect
    | CallDisconnect
    | NewSecrets
    | ConnStep(conn: nat, ok: bool)
    | DiscStep(disc: nat, ok: bool)
    | SessionTask(session: nat, kind: Kind, event: Event)
    | LoseSession(session: nat)
    | LoseConfig(config: nat)

  // ---------- Steps ----------

  function At(s: State, i: nat, pc: ConnPc): State
    requires i < |s.conns|
  {
    s.(conns := s.conns[i := s.conns[i].(pc := pc)])
  }

  function WithSession(s: State, i: nat, x: Session): State
    requires i < |s.conns|
  {
    s.(conns := s.conns[i := s.conns[i].(session := x)])
  }

  function Says(s: State, i: nat, signal: Signal, pc: ConnPc): State
    requires i < |s.conns|
  {
    s.(conns := s.conns[i := s.conns[i].(pc := pc, said := s.conns[i].said + [signal])])
  }

  /** `disconnect_requested.store(true)` on the guards that the record holds. */
  function FlagGuards(s: State): State {
    if s.record.arcs.Some? && s.record.arcs.value < |s.conns| then
      WithSession(s, s.record.arcs.value, RequestDisconnect(s.conns[s.record.arcs.value].session))
    else s
  }

  /** session.Disconnect for session `i`; on success the backend session is gone. */
  function EndSession(s: State, i: nat, ok: bool): State
    requires i < |s.conns|
  {
    var t := WithSession(s, i, HangUp(s.conns[i].session));
    if ok then t.(backend := t.backend.(live := t.backend.live - {i})) else t
  }

  function GiveUp(s: State, i: nat): State {
    s.(backend := s.backend.(givenUp := s.backend.givenUp + {i}))
  }

  /** Config Remove: its result is ignored. */
  function RemoveConfig(s: State, config: Option<nat>, ok: bool): State {
    match config
    case None => s
    case Some(c) =>
      s.(backend := s.backend.(removed := s.backend.removed + {c},
                               configs := if ok then s.backend.configs - {c} else s.backend.configs))
  }

  function Spawn(s: State, handles: set<Handle>): State {
    s.(record := s.record.(tasks := s.record.tasks + handles),
       backend := s.backend.(spawned := s.backend.spawned + handles))
  }

  function AbortAll(s: State, handles: set<Handle>): State {
    s.(backend := s.backend.(aborted := s.backend.aborted + handles))
  }

  /** `do_connect` up to the point where the session is stashed. */
  function Setup(s: State, i: nat, ok: bool): State
    requires i < |s.conns|
  {
    match s.conns[i].pc
    case Queued => if s.lock.Free? then At(s.(lock := ByConnect(i)), i, Gate) else s
    case Gate => At(s, i, if s.record.path.Some? then Failed else Clear)
    case Clear => At(s.(teardown := false), i, Prepare)
    case Prepare => At(s, i, if ok then EarlyCheck else Failed)
    case EarlyCheck => At(s, i, if s.teardown then Failed else Import)
    case Import =>
      if ok then At(s.(backend := s.backend.(configs := s.backend.configs + {i})), i, Tunnel) else At(s, i, Failed)
    case Tunnel =>
      if ok then At(s.(backend := s.backend.(live := s.backend.live + {i})), i, Stash) else At(s, i, Unimport)
    case Unimport => At(RemoveConfig(s, Some(i), ok), i, Failed)
    case Stash =>
      At(s.(record := s.record.(config := Some(i), path := Some(i), arcs := Some(i), secrets := true)), i, StashCheck)
    case _ => s
  }

  /** `do_connect` from there to its end. */
  function Bringup(s: State, i: nat, ok: bool): State
    requires i < |s.conns|
  {
    match s.conns[i].pc
    case StashCheck => At(s, i, if s.teardown then Retire else WaitReady)
    case WaitReady => At(s, i, if ok then Watch else Retire)
    case Watch =>
      var t := Spawn(s, {Handle(i, Listener), Handle(i, Attention)});
      At(WithSession(t, i, SpawnWatchers(s.conns[i].session)), i, LastCheck)
    case LastCheck => At(s, i, if s.teardown then Retire else Dial)
    case Dial =>
      At(s.(backend := s.backend.(dialled := s.backend.dialled + {i})), i, if ok then Arm else Retire)
    case Arm =>
      var t := Spawn(s, {Handle(i, Poller), Handle(i, Stats)});
      At(WithSession(t, i, SpawnPoller(s.conns[i].session)), i, Leave)
    case _ => s
  }

  /** `cleanup_session`: one pass over the record, then the backend. */
  function Cleanup(s: State, i: nat, ok: bool): State
    requires i < |s.conns|
  {
    match s.conns[i].pc
    case Retire =>
      var t := AbortAll(FlagGuards(s), s.record.tasks);
      At(t.(record := s.record.(config := None, path := None, tasks := {}, secrets := false)),
         i, HangUp1(s.record.config))
    case HangUp1(c) => At(EndSession(s, i, ok), i, if ok then Reclaim(c) else HangUp2(c))
    case HangUp2(c) => At(if ok then EndSession(s, i, ok) else GiveUp(EndSession(s, i, ok), i), i, Reclaim(c))
    case Reclaim(c) => At(RemoveConfig(s, c, ok), i, Failed)
    case _ => s
  }

  /** What `connect` does with an error, and its return. */
  function Report(s: State, i: nat): State
    requires i < |s.conns|
  {
    match s.conns[i].pc
    case Failed => At(s, i, if s.teardown then Leave else SayStopped)
    case SayStopped => Says(s, i, StoppedSignal, SayFailure)
    case SayFailure => Says(s, i, FailureSignal, Leave)
    case Leave => At(s.(lock := Free), i, Done)
    case _ => s
  }

  predicate InSetup(pc: ConnPc) {
    pc.Queued? || pc.Gate? || pc.Clear? || pc.Prepare? || pc.EarlyCheck? || pc.Import? || pc.Tunnel? || pc.Unimport?
    || pc.Stash?
  }

  predicate InBringup(pc: ConnPc) {
    pc.StashCheck? || pc.WaitReady? || pc.Watch? || pc.LastCheck? || pc.Dial? || pc.Arm?
  }

  predicate InCleanup(pc: ConnPc) { pc.Retire? || pc.HangUp1? || pc.HangUp2? || pc.Reclaim? }

  function ConnectStep(s: State, i: nat, ok: bool): State
    requires i < |s.conns|
  {
    if InSetup(s.conns[i].pc) then Setup(s, i, ok)
    else if InBringup(s.conns[i].pc) then Bringup(s, i, ok)
    else if InCleanup(s.conns[i].pc) then Cleanup(s, i, ok)
    else Report(s, i)
  }

  function DiscAt(s: State, j: nat, pc: DiscPc): State
    requires j < |s.discs|
  {
    s.(discs := s.discs[j := pc])
  }

  predicate Names(path: Option<nat>, s: State) { path.Some? && path.value < |s.conns| }

  /** `disconnect` up to the point where it owns the record: the flag is stored before the lock is awaited. */
  function Entry(s: State, j: nat): State
    requires j < |s.discs|
  {
    match s.discs[j]
    case Arrived => DiscAt(s.(teardown := true), j, Parked)
    case Parked => if s.lock.Free? then DiscAt(s.(lock := ByDisconnect(j)), j, Take) else s
    case Take => DiscAt(FlagGuards(s).(record := EMPTY), j, Abort(s.record.path, s.record.config, s.record.tasks))
    case _ => s
  }

  /** `disconnect` from there to its end. */
  function TearDown(s: State, j: nat, ok: bool): State
    requires j < |s.discs|
  {
    match s.discs[j]
    case Abort(p, c, tasks) => DiscAt(AbortAll(s, tasks), j, End1(p, c))
    case End1(p, c) =>
      if Names(p, s) then DiscAt(EndSession(s, p.value, ok), j, if ok then Drop(c) else End2(p, c))
      else DiscAt(s, j, Drop(c))
    case End2(p, c) =>
      if Names(p, s) then
        var t := EndSession(s, p.value, ok);
        DiscAt(if ok then t else GiveUp(t, p.value), j, Drop(c))
      else DiscAt(s, j, Drop(c))
    case Drop(c) => DiscAt(RemoveConfig(s, c, ok), j, TellStopped)
    case TellStopped => DiscAt(s, j, Exit)
    case Exit => DiscAt(s.(lock := Free), j, Over)
    case _ => s
  }

  predicate InEntry(pc: DiscPc) { pc.Arrived? || pc.Parked? || pc.Take? }

  function DisconnectStep(s: State, j: nat, ok: bool): State
    requires j < |s.discs|
  {
    if InEntry(s.discs[j]) then Entry(s, j) else TearDown(s, j, ok)
  }

  /** One step of the whole system; an action that cannot happen changes nothing. */
  function Next(s: State, a: Action): State {
    match a
    case CallConnect => s.(conns := s.conns + [Conn(Queued, FRESH, [])])
    case CallDisconnect => s.(discs := s.discs + [Arrived])
    case NewSecrets => if s.record.path.Some? then s.(record := s.record.(secrets := true)) else s
    case ConnStep(i, ok) => if i < |s.conns| then ConnectStep(s, i, ok) else s
    case DiscStep(j, ok) => if j < |s.discs| then DisconnectStep(s, j, ok) else s
    case SessionTask(i, kind, e) =>
      if i < |s.conns| then WithSession(s, i, TaskStep(s.conns[i].session, kind, e)) else s
    case LoseSession(i) => s.(backend := s.backend.(live := s.backend.live - {i}))
    case LoseConfig(c) => s.(backend := s.backend.(configs := s.backend.configs - {c}))
  }

  /** The state after a run. */
  function After(s: State, run: seq<Action>): State
    decreases |run|
  {
    if run == [] then s else Next(After(s, run[..|run| - 1]), run[|run| - 1])
  }

  // ---------- What every step keeps ----------

  predicate Holds(pc: ConnPc) { !pc.Queued? && !pc.Done? }

  predicate DiscHolds(pc: DiscPc) { !pc.Arrived? && !pc.Parked? && !pc.Over? }

  predicate LockInRange(s: State) {
    && (s.lock.ByConnect? ==> s.lock.conn < |s.conns|)
    && (s.lock.ByDisconnect? ==> s.lock.disc < |s.discs|)
  }

  /** The lock names the one call that stands inside its critical section. */
  predicate LockIsExclusive(s: State) {
    && LockInRange(s)
    && (forall i :: 0 <= i < |s.conns| ==> (Holds(s.conns[i].pc) <==> s.lock == ByConnect(i)))
    && (forall j :: 0 <= j < |s.discs| ==> (DiscHolds(s.discs[j]) <==> s.lock == ByDisconnect(j)))
  }

  /** The record is whole or empty: without a session it holds no config, no task and no secret. */
  predicate RecordIsWhole(s: State) {
    && (s.record.arcs.Some? ==> s.record.arcs.value < |s.conns|)
    && (s.record.path.None? ==> s.record.config.None? && s.record.tasks == {} && !s.record.secrets)
    && (s.record.path.Some? ==> s.record.config == s.record.path && s.record.arcs == s.record.path)
    && (forall h :: h in s.record.tasks ==> s.record.path == Some(h.session))
  }

  /** What the record looks like at each place inside the lock. */
  predicate ConnFits(s: State, i: nat)
    requires i < |s.conns|
  {
    var pc := s.conns[i].pc;
    && (InSetup(pc) && !pc.Gate? ==> s.record.path.None?)
    && (InBringup(pc) || pc.Retire? ==> s.record.path == Some(i))
    && (pc.HangUp1? || pc.HangUp2? || pc.Reclaim? ==> s.record.path.None? && pc.config == Some(i))
    && (pc.HangUp1? || pc.HangUp2? ==> s.conns[i].session.shared.disconnectRequested)
  }

  predicate Flagged(s: State, path: Option<nat>) {
    path.Some? ==> path.value < |s.conns| && s.conns[path.value].session.shared.disconnectRequested
  }

  predicate DiscFits(s: State, pc: DiscPc) {
    && (!pc.Take? ==> s.record.path.None?)
    && (pc.Abort? || pc.End1? || pc.End2? ==> Flagged(s, pc.path))
  }

  predicate HolderFits(s: State)
    requires LockIsExclusive(s)
  {
    match s.lock
    case Free => true
    case ByConnect(i) => ConnFits(s, i)
    case ByDisconnect(j) => DiscFits(s, s.discs[j])
  }

  function Single<T>(x: Option<T>): set<T> { if x.Some? then {x.value} else {} }

  /** What the lock holder has in hand and nobody else knows of. */
  datatype Holding = Holding(live: set<nat>, configs: set<nat>, tasks: set<Handle>)

  function ConnHolding(i: nat, pc: ConnPc): Holding {
    match pc
    case Tunnel => Holding({}, {i}, {})
    case Unimport => Holding({}, {i}, {})
    case Stash => Holding({i}, {i}, {})
    case HangUp1(c) => Holding({i}, Single(c), {})
    case HangUp2(c) => Holding({i}, Single(c), {})
    case Reclaim(c) => Holding({}, Single(c), {})
    case _ => Holding({}, {}, {})
  }

  function DiscHolding(pc: DiscPc): Holding {
    match pc
    case Abort(p, c, tasks) => Holding(Single(p), Single(c), tasks)
    case End1(p, c) => Holding(Single(p), Single(c), {})
    case End2(p, c) => Holding(Single(p), Single(c), {})
    case Drop(c) => Holding({}, Single(c), {})
    case _ => Holding({}, {}, {})
  }

  function InHand(s: State): Holding
    requires LockIsExclusive(s)
  {
    match s.lock
    case Free => Holding({}, {}, {})
    case ByConnect(i) => ConnHolding(i, s.conns[i].pc)
    case ByDisconnect(j) => DiscHolding(s.discs[j])
  }

  /** Every session, config and task is in the record, given up or cleared away, or in the holder's hands. */
  predicate Accounted(s: State, hand: Holding) {
    && s.backend.live <= Single(s.record.path) + s.backend.givenUp + hand.live
    && s.backend.configs <= Single(s.record.config) + s.backend.removed + hand.configs
    && s.backend.spawned <= s.record.tasks + s.backend.aborted + hand.tasks
  }

  predicate BeforeWatch(pc: ConnPc) { InSetup(pc) || pc.StashCheck? || pc.WaitReady? || pc.Watch? }

  predicate BeforeArm(pc: ConnPc) { InSetup(pc) || InBringup(pc) }

  predicate ConnIsSound(c: Conn) {
    && Safe(c.session)
    && (BeforeWatch(c.pc) ==> c.session.listener.at.Unborn? && c.session.attention.at.Unborn?)
    && (BeforeArm(c.pc) ==> c.session.poller.at.Unborn?)
  }

  predicate AllSound(s: State) { forall i :: 0 <= i < |s.conns| ==> ConnIsSound(s.conns[i]) }

  predicate Inv(s: State) {
    && LockIsExclusive(s)
    && RecordIsWhole(s)
    && HolderFits(s)
    && Accounted(s, InHand(s))
    && AllSound(s)
  }

  /** Only the call at hand moves, and it takes the lock when it enters and gives it back when it leaves. */
  predicate ConnMoves(s: State, t: State, i: nat)
    requires i < |s.conns|
  {
    && |t.conns| == |s.conns| && t.discs == s.discs
    && (forall k :: 0 <= k < |s.conns| && k != i ==> t.conns[k].pc == s.conns[k].pc)
    && var was, now := Holds(s.conns[i].pc), Holds(t.conns[i].pc);
       if was && !now then t.lock == Free
       else if !was && now then s.lock == Free && t.lock == ByConnect(i)
       else t.lock == s.lock
  }

  predicate DiscMoves(s: State, t: State, j: nat)
    requires j < |s.discs|
  {
    && |t.conns| == |s.conns| && |t.discs| == |s.discs|
    && (forall k :: 0 <= k < |s.conns| ==> t.conns[k].pc == s.conns[k].pc)
    && (forall k :: 0 <= k < |s.discs| && k != j ==> t.discs[k] == s.discs[k])
    && var was, now := DiscHolds(s.discs[j]), DiscHolds(t.discs[j]);
       if was && !now then t.lock == Free
       else if !was && now then s.lock == Free && t.lock == ByDisconnect(j)
       else t.lock == s.lock
  }

  lemma ConnMovesKeepLock(s: State, t: State, i: nat)
    requires i < |s.conns| && LockIsExclusive(s) && ConnMoves(s, t, i)
    ensures LockIsExclusive(t)
  {
    hide Holds, DiscHolds;
  }

  lemma DiscMovesKeepLock(s: State, t: State, j: nat)
    requires j < |s.discs| && LockIsExclusive(s) && DiscMoves(s, t, j)
    ensures LockIsExclusive(t)
  {
    hide Holds, DiscHolds;
  }

  /** Connect `i` holds the lock exactly if it stands inside it. */
  predicate ConnReady(s: State, i: nat) {
    && LockInRange(s) && i < |s.conns|
    && (Holds(s.conns[i].pc) <==> s.lock == ByConnect(i))
  }

  predicate DiscReady(s: State, j: nat) {
    && LockInRange(s) && j < |s.discs|
    && (DiscHolds(s.discs[j]) <==> s.lock == ByDisconnect(j))
  }

  lemma SetupMoves(s: State, i: nat, ok: bool)
    requires i < |s.conns| && InSetup(s.conns[i].pc)
    ensures ConnMoves(s, Setup(s, i, ok), i)
  {
    match s.conns[i].pc {
      case Queued =>
      case Gate =>
      case Clear =>
      case Prepare =>
      case EarlyCheck =>
      case Import =>
      case Tunnel =>
      case Unimport =>
      case Stash =>
      case _ =>
    }
  }

  lemma SetupKeepsRecord(s: State, i: nat, ok: bool)
    requires ConnReady(s, i) && InSetup(s.conns[i].pc) && LockIsExclusive(s)
    requires HolderFits(s) && RecordIsWhole(s)
    ensures RecordIsWhole(Setup(s, i, ok))
  {
    hide LockIsExclusive, SpawnWatchers, SpawnPoller;
    match s.conns[i].pc {
      case Queued =>
      case Gate =>
      case Clear =>
      case Prepare =>
      case EarlyCheck =>
      case Import =>
      case Tunnel =>
      case Unimport =>
      case Stash =>
      case _ =>
    }
  }

  lemma SetupKeepsFit(s: State, i: nat, ok: bool)
    requires ConnReady(s, i) && InSetup(s.conns[i].pc) && LockIsExclusive(s)
    requires HolderFits(s) && RecordIsWhole(s) && LockIsExclusive(Setup(s, i, ok))
    ensures HolderFits(Setup(s, i, ok))
  {
    hide LockIsExclusive, SpawnWatchers, SpawnPoller;
    match s.conns[i].pc {
      case Queued =>
      case Gate =>
      case Clear =>
      case Prepare =>
      case EarlyCheck =>
      case Import =>
      case Tunnel =>
      case Unimport =>
      case Stash =>
      case _ =>
    }
  }

  lemma SetupKeepsAccount(s: State, i: nat, ok: bool)
    requires ConnReady(s, i) && InSetup(s.conns[i].pc) && LockIsExclusive(s)
    requires HolderFits(s) && RecordIsWhole(s) && Accounted(s, InHand(s)) && LockIsExclusive(Setup(s, i, ok))
    ensures Accounted(Setup(s, i, ok), InHand(Setup(s, i, ok)))
  {
    hide LockIsExclusive, SpawnWatchers, SpawnPoller, HangUp, RequestDisconnect;
    match s.conns[i].pc {
      case Queued =>
      case Gate =>
      case Clear =>
      case Prepare =>
      case EarlyCheck =>
      case Import =>
      case Tunnel =>
      case Unimport =>
      case Stash =>
      case _ =>
    }
  }

  lemma BringupMoves(s: State, i: nat, ok: bool)
    requires i < |s.conns| && InBringup(s.conns[i].pc)
    ensures ConnMoves(s, Bringup(s, i, ok), i)
  {
    match s.conns[i].pc {
      case StashCheck =>
      case WaitReady =>
      case Watch =>
      case LastCheck =>
      case Dial =>
      case Arm =>
      case _ =>
    }
  }

  lemma BringupKeepsRecord(s: State, i: nat, ok: bool)
    requires ConnReady(s, i) && InBringup(s.conns[i].pc) && LockIsExclusive(s)
    requires HolderFits(s) && RecordIsWhole(s)
    ensures RecordIsWhole(Bringup(s, i, ok))
  {
    hide LockIsExclusive, SpawnWatchers, SpawnPoller;
    match s.conns[i].pc {
      case StashCheck =>
      case WaitReady =>
      case Watch =>
      case LastCheck =>
      case Dial =>
      case Arm =>
      case _ =>
    }
  }

  lemma BringupKeepsFit(s: State, i: nat, ok: bool)
    requires ConnReady(s, i) && InBringup(s.conns[i].pc) && LockIsExclusive(s)
    requires HolderFits(s) && RecordIsWhole(s) && LockIsExclusive(Bringup(s, i, ok))
    ensures HolderFits(Bringup(s, i, ok))
  {
    hide LockIsExclusive, SpawnWatchers, SpawnPoller;
    match s.conns[i].pc {
      case StashCheck =>
      case WaitReady =>
      case Watch =>
      case LastCheck =>
      case Dial =>
      case Arm =>
      case _ =>
    }
  }

  lemma BringupKeepsAccount(s: State, i: nat, ok: bool)
    requires ConnReady(s, i) && InBringup(s.conns[i].pc) && LockIsExclusive(s)
    requires HolderFits(s) && RecordIsWhole(s) && Accounted(s, InHand(s)) && LockIsExclusive(Bringup(s, i, ok))
    ensures Accounted(Bringup(s, i, ok), InHand(Bringup(s, i, ok)))
  {
    hide LockIsExclusive, SpawnWatchers, SpawnPoller, HangUp, RequestDisconnect;
    match s.conns[i].pc {
      case StashCheck =>
      case WaitReady =>
      case Watch =>
      case LastCheck =>
      case Dial =>
      case Arm =>
      case _ =>
    }
  }

  lemma CleanupMoves(s: State, i: nat, ok: bool)
    requires i < |s.conns| && InCleanup(s.conns[i].pc)
    ensures ConnMoves(s, Cleanup(s, i, ok), i)
  {
    match s.conns[i].pc {
      case Retire =>
      case HangUp1(_) =>
      case HangUp2(_) =>
      case Reclaim(_) =>
      case _ =>
    }
  }

  lemma CleanupKeepsRecord(s: State, i: nat, ok: bool)
    requires ConnReady(s, i) && InCleanup(s.conns[i].pc) && LockIsExclusive(s)
    requires HolderFits(s) && RecordIsWhole(s)
    ensures RecordIsWhole(Cleanup(s, i, ok))
  {
    hide LockIsExclusive, SpawnWatchers, SpawnPoller;
    match s.conns[i].pc {
      case Retire =>
      case HangUp1(_) =>
      case HangUp2(_) =>
      case Reclaim(_) =>
      case _ =>
    }
  }

  lemma CleanupKeepsFit(s: State, i: nat, ok: bool)
    requires ConnReady(s, i) && InCleanup(s.conns[i].pc) && LockIsExclusive(s)
    requires HolderFits(s) && RecordIsWhole(s) && LockIsExclusive(Cleanup(s, i, ok))
    ensures HolderFits(Cleanup(s, i, ok))
  {
    hide LockIsExclusive, SpawnWatchers, SpawnPoller;
    match s.conns[i].pc {
      case Retire =>
      case HangUp1(_) =>
      case HangUp2(_) =>
      case Reclaim(_) =>
      case _ =>
    }
  }

  lemma RetireKeepsAccount(s: State, i: nat, ok: bool)
    requires ConnReady(s, i) && s.conns[i].pc.Retire? && LockIsExclusive(s)
    requires HolderFits(s) && RecordIsWhole(s) && Accounted(s, InHand(s)) && LockIsExclusive(Cleanup(s, i, ok))
    ensures Accounted(Cleanup(s, i, ok), InHand(Cleanup(s, i, ok)))
  {
    hide LockIsExclusive, SpawnWatchers, SpawnPoller, HangUp, RequestDisconnect;
  }

  lemma HangUpKeepsAccount(s: State, i: nat, ok: bool)
    requires ConnReady(s, i) && (s.conns[i].pc.HangUp1? || s.conns[i].pc.HangUp2?) && LockIsExclusive(s)
    requires HolderFits(s) && RecordIsWhole(s) && Accounted(s, InHand(s)) && LockIsExclusive(Cleanup(s, i, ok))
    ensures Accounted(Cleanup(s, i, ok), InHand(Cleanup(s, i, ok)))
  {
    hide LockIsExclusive, SpawnWatchers, SpawnPoller, HangUp, RequestDisconnect;
  }

  lemma ReclaimKeepsAccount(s: State, i: nat, ok: bool)
    requires ConnReady(s, i) && s.conns[i].pc.Reclaim? && LockIsExclusive(s)
    requires HolderFits(s) && RecordIsWhole(s) && Accounted(s, InHand(s)) && LockIsExclusive(Cleanup(s, i, ok))
    ensures Accounted(Cleanup(s, i, ok), InHand(Cleanup(s, i, ok)))
  {
    hide LockIsExclusive, SpawnWatchers, SpawnPoller, HangUp, RequestDisconnect;
  }

  lemma CleanupKeepsAccount(s: State, i: nat, ok: bool)
    requires ConnReady(s, i) && InCleanup(s.conns[i].pc) && LockIsExclusive(s)
    requires HolderFits(s) && RecordIsWhole(s) && Accounted(s, InHand(s)) && LockIsExclusive(Cleanup(s, i, ok))
    ensures Accounted(Cleanup(s, i, ok), InHand(Cleanup(s, i, ok)))
  {
    hide Accounted, HolderFits, LockIsExclusive, Cleanup;
    match s.conns[i].pc {
      case Retire => RetireKeepsAccount(s, i, ok);
      case HangUp1(_) => HangUpKeepsAccount(s, i, ok);
      case HangUp2(_) => HangUpKeepsAccount(s, i, ok);
      case _ => ReclaimKeepsAccount(s, i, ok);
    }
  }

  lemma ReportMoves(s: State, i: nat)
    requires i < |s.conns|
    ensures ConnMoves(s, Report(s, i), i)
  {
    match s.conns[i].pc {
      case Failed =>
      case SayStopped =>
      case SayFailure =>
      case Leave =>
      case _ =>
    }
  }

  lemma ReportKeepsRecord(s: State, i: nat)
    requires ConnReady(s, i) && LockIsExclusive(s)
    requires HolderFits(s) && RecordIsWhole(s)
    ensures RecordIsWhole(Report(s, i))
  {
    hide LockIsExclusive, SpawnWatchers, SpawnPoller;
    match s.conns[i].pc {
      case Failed =>
      case SayStopped =>
      case SayFailure =>
      case Leave =>
      case _ =>
    }
  }

  lemma ReportKeepsFit(s: State, i: nat)
    requires ConnReady(s, i) && LockIsExclusive(s)
    requires HolderFits(s) && RecordIsWhole(s) && LockIsExclusive(Report(s, i))
    ensures HolderFits(Report(s, i))
  {
    hide LockIsExclusive, SpawnWatchers, SpawnPoller;
    match s.conns[i].pc {
      case Failed =>
      case SayStopped =>
      case SayFailure =>
      case Leave =>
      case _ =>
    }
  }

  lemma ReportKeepsAccount(s: State, i: nat)
    requires ConnReady(s, i) && LockIsExclusive(s)
    requires HolderFits(s) && RecordIsWhole(s) && Accounted(s, InHand(s)) && LockIsExclusive(Report(s, i))
    ensures Accounted(Report(s, i), InHand(Report(s, i)))
  {
    hide LockIsExclusive, SpawnWatchers, SpawnPoller, HangUp, RequestDisconnect;
    match s.conns[i].pc {
      case Failed =>
      case SayStopped =>
      case SayFailure =>
      case Leave =>
      case _ =>
    }
  }

  lemma EntryMoves(s: State, j: nat)
    requires j < |s.discs|
    ensures DiscMoves(s, Entry(s, j), j)
  {
    match s.discs[j] {
      case Arrived =>
      case Parked =>
      case Take =>
      case _ =>
    }
  }

  lemma EntryKeepsRecord(s: State, j: nat)
    requires DiscReady(s, j) && LockIsExclusive(s)
    requires HolderFits(s) && RecordIsWhole(s)
    ensures RecordIsWhole(Entry(s, j))
  {
    hide LockIsExclusive, SpawnWatchers, SpawnPoller;
    match s.discs[j] {
      case Arrived =>
      case Parked =>
      case Take =>
      case _ =>
    }
  }

  lemma EntryKeepsFit(s: State, j: nat)
    requires DiscReady(s, j) && LockIsExclusive(s)
    requires HolderFits(s) && RecordIsWhole(s) && LockIsExclusive(Entry(s, j))
    ensures HolderFits(Entry(s, j))
  {
    hide LockIsExclusive, SpawnWatchers, SpawnPoller;
    match s.discs[j] {
      case Arrived =>
      case Parked =>
      case Take =>
      case _ =>
    }
  }

  lemma EntryKeepsAccount(s: State, j: nat)
    requires DiscReady(s, j) && LockIsExclusive(s)
    requires HolderFits(s) && RecordIsWhole(s) && Accounted(s, InHand(s)) && LockIsExclusive(Entry(s, j))
    ensures Accounted(Entry(s, j), InHand(Entry(s, j)))
  {
    hide LockIsExclusive, SpawnWatchers, SpawnPoller, HangUp, RequestDisconnect;
    match s.discs[j] {
      case Arrived =>
      case Parked =>
      case Take =>
      case _ =>
    }
  }

  lemma TearDownMoves(s: State, j: nat, ok: bool)
    requires j < |s.discs|
    ensures DiscMoves(s, TearDown(s, j, ok), j)
  {
    match s.discs[j] {
      case Abort(_, _, _) =>
      case End1(_, _) =>
      case End2(_, _) =>
      case Drop(_) =>
      case TellStopped =>
      case Exit =>
      case _ =>
    }
  }

  lemma TearDownKeepsRecord(s: State, j: nat, ok: bool)
    requires DiscReady(s, j) && LockIsExclusive(s)
    requires HolderFits(s) && RecordIsWhole(s)
    ensures RecordIsWhole(TearDown(s, j, ok))
  {
    hide LockIsExclusive, SpawnWatchers, SpawnPoller;
    match s.discs[j] {
      case Abort(_, _, _) =>
      case End1(_, _) =>
      case End2(_, _) =>
      case Drop(_) =>
      case TellStopped =>
      case Exit =>
      case _ =>
    }
  }

  lemma TearDownKeepsFit(s: State, j: nat, ok: bool)
    requires DiscReady(s, j) && LockIsExclusive(s)
    requires HolderFits(s) && RecordIsWhole(s) && LockIsExclusive(TearDown(s, j, ok))
    ensures HolderFits(TearDown(s, j, ok))
  {
    hide LockIsExclusive, SpawnWatchers, SpawnPoller;
    match s.discs[j] {
      case Abort(_, _, _) =>
      case End1(_, _) =>
      case End2(_, _) =>
      case Drop(_) =>
      case TellStopped =>
      case Exit =>
      case _ =>
    }
  }

  lemma TearDownKeepsAccount(s: State, j: nat, ok: bool)
    requires DiscReady(s, j) && LockIsExclusive(s)
    requires HolderFits(s) && RecordIsWhole(s) && Accounted(s, InHand(s)) && LockIsExclusive(TearDown(s, j, ok))
    ensures Accounted(TearDown(s, j, ok), InHand(TearDown(s, j, ok)))
  {
    hide LockIsExclusive, SpawnWatchers, SpawnPoller, HangUp, RequestDisconnect;
    match s.discs[j] {
      case Abort(_, _, _) =>
      case End1(_, _) =>
      case End2(_, _) =>
      case Drop(_) =>
      case TellStopped =>
      case Exit =>
      case _ =>
    }
  }

  lemma FlagGuardsIsSound(s: State)
    requires AllSound(s)
    ensures AllSound(FlagGuards(s)) && |FlagGuards(s).conns| == |s.conns|
  {
    hide Safe, RequestDisconnect, BeforeWatch, BeforeArm;
    if s.record.arcs.Some? && s.record.arcs.value < |s.conns| {
      CallsAreSafe(s.conns[s.record.arcs.value].session);
      CallsLeaveTasks(s.conns[s.record.arcs.value].session);
    }
  }

  lemma EndSessionIsSound(s: State, i: nat, ok: bool)
    requires AllSound(s) && Flagged(s, Some(i))
    ensures AllSound(EndSession(s, i, ok)) && |EndSession(s, i, ok).conns| == |s.conns|
  {
    hide Safe, HangUp, BeforeWatch, BeforeArm;
    CallsAreSafe(s.conns[i].session);
    CallsLeaveTasks(s.conns[i].session);
  }

  lemma CallsLeaveTasks(x: Session)
    ensures var y := RequestDisconnect(x);
            y.listener == x.listener && y.attention == x.attention && y.poller == x.poller
    ensures var y := HangUp(x); y.listener == x.listener && y.attention == x.attention && y.poller == x.poller
  {}

  lemma SetupIsSound(s: State, i: nat, ok: bool)
    requires AllSound(s) && i < |s.conns| && InSetup(s.conns[i].pc)
    ensures AllSound(Setup(s, i, ok))
  {
    hide Safe;
  }

  lemma BringupIsSound(s: State, i: nat, ok: bool)
    requires AllSound(s) && i < |s.conns| && InBringup(s.conns[i].pc)
    ensures AllSound(Bringup(s, i, ok))
  {
    hide Safe;
    CallsAreSafe(s.conns[i].session);
    match s.conns[i].pc {
      case StashCheck =>
      case WaitReady =>
      case Watch =>
      case LastCheck =>
      case Dial =>
      case Arm =>
      case _ =>
    }
  }

  lemma CleanupIsSound(s: State, i: nat, ok: bool)
    requires AllSound(s) && i < |s.conns| && InCleanup(s.conns[i].pc)
    requires s.conns[i].pc.HangUp1? || s.conns[i].pc.HangUp2? ==> Flagged(s, Some(i))
    ensures AllSound(Cleanup(s, i, ok))
  {
    hide Safe, FlagGuards, EndSession;
    match s.conns[i].pc {
      case Retire => FlagGuardsIsSound(s);
      case HangUp1(_) => EndSessionIsSound(s, i, ok);
      case HangUp2(_) => EndSessionIsSound(s, i, ok);
      case _ =>
    }
  }

  lemma ReportIsSound(s: State, i: nat)
    requires AllSound(s) && i < |s.conns|
    ensures AllSound(Report(s, i))
  {
    hide Safe;
  }

  lemma EntryIsSound(s: State, j: nat)
    requires AllSound(s) && j < |s.discs|
    ensures AllSound(Entry(s, j))
  {
    hide Safe, FlagGuards;
    FlagGuardsIsSound(s);
  }

  lemma TearDownIsSound(s: State, j: nat, ok: bool)
    requires AllSound(s) && j < |s.discs|
    requires s.discs[j].End1? || s.discs[j].End2? ==> Flagged(s, s.discs[j].path)
    ensures AllSound(TearDown(s, j, ok))
  {
    hide Safe, EndSession;
    match s.discs[j] {
      case End1(p, _) => if p.Some? { EndSessionIsSound(s, p.value, ok); }
      case End2(p, _) => if p.Some? { EndSessionIsSound(s, p.value, ok); }
      case _ =>
    }
  }

  lemma TaskIsSound(s: State, i: nat, kind: Kind, e: Event)
    requires AllSound(s) && i < |s.conns|
    ensures AllSound(WithSession(s, i, TaskStep(s.conns[i].session, kind, e)))
  {
    hide Safe, TaskStep;
    StepIsSafe(s.conns[i].session, kind, e);
    UnbornStays(s.conns[i].session, kind, e);
  }

  lemma ConnectStepKeeps(s: State, i: nat, ok: bool)
    requires Inv(s) && i < |s.conns|
    ensures Inv(ConnectStep(s, i, ok))
  {
    hide Setup, Bringup, Cleanup, Report, RecordIsWhole, Accounted, InHand, AllSound, ConnMoves;
    if InSetup(s.conns[i].pc) {
      SetupMoves(s, i, ok);
      ConnMovesKeepLock(s, Setup(s, i, ok), i);
      SetupKeepsRecord(s, i, ok);
      SetupKeepsFit(s, i, ok);
      SetupKeepsAccount(s, i, ok);
      SetupIsSound(s, i, ok);
    } else if InBringup(s.conns[i].pc) {
      BringupMoves(s, i, ok);
      ConnMovesKeepLock(s, Bringup(s, i, ok), i);
      BringupKeepsRecord(s, i, ok);
      BringupKeepsFit(s, i, ok);
      BringupKeepsAccount(s, i, ok);
      BringupIsSound(s, i, ok);
    } else if InCleanup(s.conns[i].pc) {
      CleanupMoves(s, i, ok);
      ConnMovesKeepLock(s, Cleanup(s, i, ok), i);
      CleanupKeepsRecord(s, i, ok);
      CleanupKeepsFit(s, i, ok);
      CleanupKeepsAccount(s, i, ok);
      CleanupIsSound(s, i, ok);
    } else {
      ReportMoves(s, i);
      ConnMovesKeepLock(s, Report(s, i), i);
      ReportKeepsRecord(s, i);
      ReportKeepsFit(s, i);
      ReportKeepsAccount(s, i);
      ReportIsSound(s, i);
    }
  }

  lemma DisconnectStepKeeps(s: State, j: nat, ok: bool)
    requires Inv(s) && j < |s.discs|
    ensures Inv(DisconnectStep(s, j, ok))
  {
    hide Entry, TearDown, RecordIsWhole, Accounted, InHand, AllSound, DiscMoves;
    if InEntry(s.discs[j]) {
      EntryMoves(s, j);
      DiscMovesKeepLock(s, Entry(s, j), j);
      EntryKeepsRecord(s, j);
      EntryKeepsFit(s, j);
      EntryKeepsAccount(s, j);
      EntryIsSound(s, j);
    } else {
      TearDownMoves(s, j, ok);
      DiscMovesKeepLock(s, TearDown(s, j, ok), j);
      TearDownKeepsRecord(s, j, ok);
      TearDownKeepsFit(s, j, ok);
      TearDownKeepsAccount(s, j, ok);
      TearDownIsSound(s, j, ok);
    }
  }

  lemma ArrivalsKeep(s: State)
    requires Inv(s)
    ensures Inv(Next(s, CallConnect)) && Inv(Next(s, CallDisconnect))
  {
    hide Safe, ConnHolding, DiscHolding;
    assert ConnIsSound(Conn(Queued, FRESH, [])) by { FreshIsSafe(); }
  }

  lemma TaskStepKeeps(s: State, i: nat, kind: Kind, e: Event)
    requires Inv(s) && i < |s.conns|
    ensures Inv(WithSession(s, i, TaskStep(s.conns[i].session, kind, e)))
  {
    hide TaskStep, AllSound;
    TaskIsSound(s, i, kind, e);
    StepLeavesFlags(s.conns[i].session, kind, e);
  }

  lemma SecretsKeep(s: State)
    requires Inv(s)
    ensures Inv(Next(s, NewSecrets))
  {
    hide ConnIsSound;
  }

  lemma LossesKeep(s: State, k: nat)
    requires Inv(s)
    ensures Inv(Next(s, LoseSession(k))) && Inv(Next(s, LoseConfig(k)))
  {
    hide ConnIsSound, Holds, DiscHolds, InSetup, InBringup, ConnHolding, DiscHolding;
  }

  lemma NextKeeps(s: State, a: Action)
    requires Inv(s)
    ensures Inv(Next(s, a))
  {
    hide Inv, ConnectStep, DisconnectStep, WithSession, TaskStep;
    match a {
      case CallConnect => ArrivalsKeep(s);
      case CallDisconnect => ArrivalsKeep(s);
      case NewSecrets => SecretsKeep(s);
      case ConnStep(i, ok) => if i < |s.conns| { ConnectStepKeeps(s, i, ok); }
      case DiscStep(j, ok) => if j < |s.discs| { DisconnectStepKeeps(s, j, ok); }
      case SessionTask(i, kind, e) => if i < |s.conns| { TaskStepKeeps(s, i, kind, e); }
      case LoseSession(i) => LossesKeep(s, i);
      case LoseConfig(c) => LossesKeep(s, c);
    }
  }

  /** The invariant holds after every run. */
  lemma {:induction false} RunsKeep(s: State, run: seq<Action>)
    requires Inv(s)
    ensures Inv(After(s, run))
    decreases |run|
  {
    hide Inv, Next;
    if run != [] {
      RunsKeep(s, run[..|run| - 1]);
      NextKeeps(After(s, run[..|run| - 1]), run[|run| - 1]);
    }
  }
}
