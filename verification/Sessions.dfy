/**
  * One openvpn3 session as the plugin's background tasks see it: the shared
  * guards that a Connect creates for it, and the listener, attention and
  * poller tasks that race on them.  A task step is one access to a shared
  * guard, one emission, or one observation of the backend.
  */
module Sessions {

  datatype Reason = BadIpConfig | BackendStopped | NeverStarted | Unreachable | LoginFailed

  /** The Failures that are sent only after a look at `disconnect_requested`: the Stopped arms and the attention arm. */
  predicate IsChecked(r: Reason) { r.BackendStopped? || r.LoginFailed? }

  /** A Failure signal.  `own` says that the event behind it was caused by the plugin's own session.Disconnect. */
  datatype Failure = Failure(own: bool, reason: Reason)

  datatype Kind = Listener | Attention | Poller | Stats

  /** Where a task stands.  `past` is the poller's private copy of "Started was reported". */
  datatype Place =
    | Unborn
    | Idle(past: bool)
    | Claim
    | Emitting
    | RollBack(own: bool)
    | Check(failure: Failure)
    | Fail(failure: Failure)
    | Send(failure: Failure)
    | Gone

  /** A task: where it stands, and how often it began an Ip4Config emission. */
  datatype Task = Task(at: Place, tries: nat)

  /**
    * What the tasks of a session share.  The three guards are the program's;
    * `hungUp` records that session.Disconnect was called, `sent` counts the
    * Ip4Config emissions that succeeded, and `failures` lists the Failure
    * signals the tasks sent.
    */
  datatype Shared = Shared(
    ip4Guard: bool,
    disconnectRequested: bool,
    failGuard: bool,
    hungUp: bool,
    sent: nat,
    failures: seq<Failure>)

  datatype Session = Session(shared: Shared, listener: Task, attention: Task, poller: Task)

  const UNBORN := Task(Unborn, 0)

  const FRESH := Session(Shared(false, false, false, false, 0, []), UNBORN, UNBORN, UNBORN)

  /**
    * What a task may learn from the backend while it is idle.  `own` says that
    * the plugin's own session.Disconnect brought it about.
    */
  datatype Sight =
    | Started
    | Stopped(own: bool)
    | TimedOut(own: bool)
    | Silent(own: bool)
    | Rejected(own: bool)
    | Nothing

  /**
    * `Sees` ends a wait, `Goes` carries out the step the task stands at, where
    * `own` says why an emission failed, and
    * `Dies` stops the task anywhere: it covers an abort and a failed
    * subscription.  `landed` says that the emission it was in had gone out.
    */
  datatype Event = Sees(sight: Sight) | Goes(ok: bool, own: bool) | Dies(landed: bool)

  /** Nothing can be the plugin's own doing before it called session.Disconnect. */
  function Because(own: bool, hungUp: bool, reason: Reason): Failure { Failure(own && hungUp, reason) }

  /** What an idle task does next. */
  function Observe(kind: Kind, past: bool, sight: Sight, hungUp: bool): Place {
    match sight
    case Started => if kind == Listener || (kind == Poller && !past) then Claim else Idle(past)
    case Stopped(own) => if kind != Attention then Check(Because(own, hungUp, BackendStopped)) else Idle(past)
    case TimedOut(own) => if kind == Poller && !past then Fail(Because(own, hungUp, NeverStarted)) else Idle(past)
    case Silent(own) => if kind == Poller && past then Fail(Because(own, hungUp, Unreachable)) else Idle(past)
    case Rejected(own) => if kind == Attention then Check(Because(own, hungUp, LoginFailed)) else Idle(past)
    case Nothing => Idle(past)
  }

  /** The shared part and the one task that moves. */
  datatype Move = Move(shared: Shared, task: Task)

  function Advance(kind: Kind, g: Shared, t: Task, ok: bool, own: bool): Move {
    match t.at
    case Claim =>
      if g.ip4Guard then Move(g, t.(at := Idle(kind == Poller)))
      else Move(g.(ip4Guard := true), Task(Emitting, t.tries + 1))
    case Emitting =>
      if ok then Move(g.(sent := g.sent + 1), t.(at := Idle(kind == Poller)))
      else Move(g, t.(at := RollBack(own && g.hungUp)))
    case RollBack(blame) => Move(g.(ip4Guard := false), t.(at := Fail(Failure(blame, BadIpConfig))))
    case Check(f) => Move(g, t.(at := if g.disconnectRequested then Gone else Fail(f)))
    case Fail(f) =>
      if g.failGuard then Move(g, t.(at := Gone)) else Move(g.(failGuard := true), t.(at := Send(f)))
    case Send(f) => Move(g.(failures := g.failures + [f]), t.(at := Gone))
    case _ => Move(g, t)
  }

  function Die(g: Shared, t: Task, landed: bool): Move {
    match t.at
    case Unborn => Move(g, t)
    case Emitting => Move(if landed then g.(sent := g.sent + 1) else g, t.(at := Gone))
    case Send(f) => Move(if landed then g.(failures := g.failures + [f]) else g, t.(at := Gone))
    case _ => Move(g, t.(at := Gone))
  }

  function Moved(kind: Kind, g: Shared, t: Task, e: Event): Move {
    match e
    case Sees(sight) => Move(g, if t.at.Idle? then t.(at := Observe(kind, t.at.past, sight, g.hungUp)) else t)
    case Goes(ok, own) => Advance(kind, g, t, ok, own)
    case Dies(landed) => Die(g, t, landed)
  }

  /** One step of one task of the session.  The statistics task touches nothing that is modelled. */
  function TaskStep(x: Session, kind: Kind, e: Event): Session {
    match kind
    case Listener => var m := Moved(kind, x.shared, x.listener, e); x.(shared := m.shared, listener := m.task)
    case Attention => var m := Moved(kind, x.shared, x.attention, e); x.(shared := m.shared, attention := m.task)
    case Poller => var m := Moved(kind, x.shared, x.poller, e); x.(shared := m.shared, poller := m.task)
    case Stats => x
  }

  // ---------- What a session keeps ----------

  /** Inside the emission or its roll-back: the stretch the guard protects. */
  predicate Busy(t: Task) { t.at.Emitting? || t.at.RollBack? }

  /** May still reach for the guard. */
  predicate Hopeful(t: Task) { t.at.Unborn? || t.at.Idle? || t.at.Claim? }

  /** A Failure for the plugin's own doing comes only from an arm that does not look at the flag. */
  predicate Excusable(g: Shared, f: Failure) { f.own ==> g.hungUp && !IsChecked(f.reason) }

  predicate SharedSafe(g: Shared) {
    && g.sent <= 1 && (g.sent == 1 ==> g.ip4Guard)
    && |g.failures| <= 1 && (|g.failures| == 1 ==> g.failGuard && Excusable(g, g.failures[0]))
    && (g.hungUp ==> g.disconnectRequested)
  }

  /** What one task owes the shared part. */
  predicate TaskSafe(kind: Kind, g: Shared, t: Task) {
    && (Busy(t) ==> g.ip4Guard && g.sent == 0)
    && t.tries <= 1 && (t.tries == 1 && Hopeful(t) ==> g.sent == 1)
    && (t.at.Send? ==> g.failGuard && g.failures == [])
    && (t.at.Check? ==> IsChecked(t.at.failure.reason) && (t.at.failure.own ==> g.hungUp))
    && (t.at.RollBack? && t.at.own ==> g.hungUp)
    && (t.at.Fail? || t.at.Send? ==> Excusable(g, t.at.failure))
    && (kind == Attention ==> t.tries == 0 && !t.at.Claim? && !Busy(t))
  }

  /** What two different tasks never do at once. */
  predicate Apart(t: Task, u: Task) { !(Busy(t) && Busy(u)) && !(t.at.Send? && u.at.Send?) }

  predicate Safe(x: Session) {
    && SharedSafe(x.shared)
    && TaskSafe(Listener, x.shared, x.listener)
    && TaskSafe(Attention, x.shared, x.attention)
    && TaskSafe(Poller, x.shared, x.poller)
    && Apart(x.listener, x.attention) && Apart(x.listener, x.poller) && Apart(x.attention, x.poller)
  }

  /** The mover `t` keeps its own duties and those of any bystander `u`. */
  lemma MoverKeepsShared(kind: Kind, g: Shared, t: Task, e: Event)
    requires SharedSafe(g) && TaskSafe(kind, g, t)
    ensures SharedSafe(Moved(kind, g, t, e).shared)
  {}

  lemma MoverIsSafe(kind: Kind, g: Shared, t: Task, e: Event)
    requires SharedSafe(g) && TaskSafe(kind, g, t)
    ensures var m := Moved(kind, g, t, e); TaskSafe(kind, m.shared, m.task)
  {}

  lemma MoverLeavesFlags(kind: Kind, g: Shared, t: Task, e: Event)
    ensures var h := Moved(kind, g, t, e).shared;
            h.disconnectRequested == g.disconnectRequested && h.hungUp == g.hungUp
  {}

  lemma BystanderIsSafe(kind: Kind, g: Shared, t: Task, e: Event, other: Kind, u: Task)
    requires SharedSafe(g) && TaskSafe(kind, g, t) && TaskSafe(other, g, u) && Apart(t, u)
    ensures var m := Moved(kind, g, t, e); TaskSafe(other, m.shared, u) && Apart(m.task, u)
  {}

  lemma StepIsSafe(x: Session, kind: Kind, e: Event)
    requires Safe(x)
    ensures Safe(TaskStep(x, kind, e))
  {
    hide Moved, SharedSafe, TaskSafe;
    var g := x.shared;
    match kind {
      case Listener =>
        MoverKeepsShared(kind, g, x.listener, e);
        MoverIsSafe(kind, g, x.listener, e);
        BystanderIsSafe(kind, g, x.listener, e, Attention, x.attention);
        BystanderIsSafe(kind, g, x.listener, e, Poller, x.poller);
      case Attention =>
        MoverKeepsShared(kind, g, x.attention, e);
        MoverIsSafe(kind, g, x.attention, e);
        BystanderIsSafe(kind, g, x.attention, e, Listener, x.listener);
        BystanderIsSafe(kind, g, x.attention, e, Poller, x.poller);
      case Poller =>
        MoverKeepsShared(kind, g, x.poller, e);
        MoverIsSafe(kind, g, x.poller, e);
        BystanderIsSafe(kind, g, x.poller, e, Listener, x.listener);
        BystanderIsSafe(kind, g, x.poller, e, Attention, x.attention);
      case Stats =>
    }
  }

  /** The two flags that belong to the plugin's calls are never touched by a task. */
  lemma StepLeavesFlags(x: Session, kind: Kind, e: Event)
    ensures TaskStep(x, kind, e).shared.disconnectRequested == x.shared.disconnectRequested
    ensures TaskStep(x, kind, e).shared.hungUp == x.shared.hungUp
  {
    hide Moved;
    MoverLeavesFlags(kind, x.shared, x.listener, e);
    MoverLeavesFlags(kind, x.shared, x.attention, e);
    MoverLeavesFlags(kind, x.shared, x.poller, e);
  }

  /** A task does nothing before it is spawned. */
  lemma UnbornStays(x: Session, kind: Kind, e: Event)
    ensures x.listener.at.Unborn? ==> TaskStep(x, kind, e).listener == x.listener
    ensures x.attention.at.Unborn? ==> TaskStep(x, kind, e).attention == x.attention
    ensures x.poller.at.Unborn? ==> TaskStep(x, kind, e).poller == x.poller
  {}

  lemma FreshIsSafe()
    ensures Safe(FRESH)
  {}

  // ---------- What the plugin's calls do to a session ----------

  function RequestDisconnect(x: Session): Session { x.(shared := x.shared.(disconnectRequested := true)) }

  function HangUp(x: Session): Session { x.(shared := x.shared.(hungUp := true)) }

  function SpawnWatchers(x: Session): Session {
    x.(listener := x.listener.(at := Idle(false)), attention := x.attention.(at := Idle(false)))
  }

  function SpawnPoller(x: Session): Session { x.(poller := x.poller.(at := Idle(false))) }

  lemma CallsAreSafe(x: Session)
    requires Safe(x)
    ensures Safe(RequestDisconnect(x))
    ensures x.shared.disconnectRequested ==> Safe(HangUp(x))
    ensures x.listener.at.Unborn? && x.attention.at.Unborn? ==> Safe(SpawnWatchers(x))
    ensures x.poller.at.Unborn? ==> Safe(SpawnPoller(x))
  {}
}
