/**
  * What becomes of a background task after one observation if it is left to
  * carry on: the arms of the listener, attention and poller loops from the
  * event to their end, guards and signals included.
  */
module Arms {
  import opened Sessions

  function TaskOf(x: Session, kind: Kind): Task {
    match kind
    case Listener => x.listener
    case Attention => x.attention
    case Poller => x.poller
    case Stats => UNBORN
  }

  /** A step of one task moves that task and what is shared, and leaves the other tasks where they are. */
  lemma StepMoves(x: Session, kind: Kind, e: Event, other: Kind)
    requires kind != Stats && other != kind
    ensures Move(TaskStep(x, kind, e).shared, TaskOf(TaskStep(x, kind, e), kind)) ==
            Moved(kind, x.shared, TaskOf(x, kind), e)
    ensures TaskOf(TaskStep(x, kind, e), other) == TaskOf(x, other)
    ensures TaskStep(x, Stats, e) == x
  {
    hide Moved;
    match kind {
      case Listener =>
      case Attention =>
      case Poller =>
      case Stats =>
    }
  }

  function Go(kind: Kind, m: Move, ok: bool, own: bool): Move { Moved(kind, m.shared, m.task, Goes(ok, own)) }

  /** One observation and the five steps that see any arm through; `ok` is what an emission is answered. */
  function Through(kind: Kind, g: Shared, t: Task, sight: Sight, ok: bool, own: bool): Move {
    var m := Go(kind, Go(kind, Moved(kind, g, t, Sees(sight)), ok, own), ok, own);
    Go(kind, Go(kind, Go(kind, m, ok, own), ok, own), ok, own)
  }

  /** The task is over, and it sent `f` unless a Failure had been sent. */
  predicate EndsWith(g: Shared, m: Move, f: Failure) {
    && m.task.at.Gone?
    && m.shared == g.(failGuard := true, failures := g.failures + if g.failGuard then [] else [f])
  }

  /** A Stopped status ends listener and poller, with a Failure unless the flag was up or one was sent. */
  lemma StoppedEnds(kind: Kind, g: Shared, t: Task, caused: bool, ok: bool, own: bool)
    requires (kind == Listener || kind == Poller) && t.at.Idle?
    ensures var m := Through(kind, g, t, Stopped(caused), ok, own);
      if g.disconnectRequested then m.task.at.Gone? && m.shared == g
      else EndsWith(g, m, Failure(caused && g.hungUp, BackendStopped))
  {}

  /** So does input that was refused end the attention task. */
  lemma RejectedEnds(g: Shared, t: Task, caused: bool, ok: bool, own: bool)
    requires t.at.Idle?
    ensures var m := Through(Attention, g, t, Rejected(caused), ok, own);
      if g.disconnectRequested then m.task.at.Gone? && m.shared == g
      else EndsWith(g, m, Failure(caused && g.hungUp, LoginFailed))
  {}

  /** The poller gives up on a session that never started, flag or no flag. */
  lemma TimeoutEnds(g: Shared, t: Task, caused: bool, ok: bool, own: bool)
    requires t.at == Idle(false)
    ensures EndsWith(g, Through(Poller, g, t, TimedOut(caused), ok, own), Failure(caused && g.hungUp, NeverStarted))
  {}

  /** And on one that fell silent after it had started. */
  lemma SilenceEnds(g: Shared, t: Task, caused: bool, ok: bool, own: bool)
    requires t.at == Idle(true)
    ensures EndsWith(g, Through(Poller, g, t, Silent(caused), ok, own), Failure(caused && g.hungUp, Unreachable))
  {}

  predicate Hopes(kind: Kind, t: Task) { t.at.Idle? && (kind == Listener || (kind == Poller && !t.at.past)) }

  /** Who finds the guard free emits, and waits on; the poller remembers that Started was reported. */
  lemma StartedEmits(kind: Kind, g: Shared, t: Task, own: bool)
    requires Hopes(kind, t) && !g.ip4Guard
    ensures Through(kind, g, t, Started, true, own) ==
            Move(g.(ip4Guard := true, sent := g.sent + 1), Task(Idle(kind == Poller), t.tries + 1))
  {}

  /** Who finds it taken sends nothing, and waits on likewise. */
  lemma StartedLoses(kind: Kind, g: Shared, t: Task, ok: bool, own: bool)
    requires Hopes(kind, t) && g.ip4Guard
    ensures Through(kind, g, t, Started, ok, own) == Move(g, Task(Idle(kind == Poller), t.tries))
  {}

  /** An emission that fails gives the guard back and ends the task with a Failure, flag or no flag. */
  lemma FailedEmissionEnds(kind: Kind, g: Shared, t: Task, own: bool)
    requires Hopes(kind, t) && !g.ip4Guard
    ensures EndsWith(g, Through(kind, g, t, Started, false, own), Failure(own && g.hungUp, BadIpConfig))
  {}

  /** Each task passes over what is for another, and the poller over what its stage does not ask for. */
  predicate PassesOver(kind: Kind, past: bool, sight: Sight) {
    || sight.Nothing?
    || (kind == Attention && !sight.Rejected?)
    || (kind == Listener && !sight.Started? && !sight.Stopped?)
    || (kind == Poller && sight.Rejected?)
    || (kind == Poller && past && (sight.Started? || sight.TimedOut?))
    || (kind == Poller && !past && sight.Silent?)
  }

  lemma OthersArePassedOver(kind: Kind, g: Shared, t: Task, sight: Sight)
    requires kind != Stats && t.at.Idle?
    ensures Moved(kind, g, t, Sees(sight)) == Move(g, t) <==> PassesOver(kind, t.at.past, sight)
  {}
}
