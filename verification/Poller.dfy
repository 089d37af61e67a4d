/**
  * The status poller: a poll every half second until Started was reported, a
  * watchdog tick every five seconds afterwards.  A `Round` is what one pass of
  * the loop learns from its awaited calls.
  */
module Poller {
  import opened Text

  datatype NmState = Starting | Started | Stopped

  /** `Status::from_wire` followed by `to_nm_state`: None is "no transition". */
  function Target(major: nat, minor: nat): Option<NmState> {
    if major == 2 then
      if minor == 6 || minor == 12 then Some(Starting)
      else if minor == 7 then Some(Started)
      else if minor == 9 || minor == 10 || minor == 11 || minor == 16 then Some(Stopped)
      else None
    else if major == 3 && minor == 11 then Some(Stopped)
    else None
  }

  datatype Status = Got(major: nat, minor: nat) | Lost

  datatype Round = Round(
    status: Status,
    device: Option<string>,
    emitter: bool,
    guardFree: bool,
    emitted: bool,
    disconnectRequested: bool)

  datatype Ending = Running | NeverStarted | BadIpConfig | SawStopped | Unreachable

  /**
    * `past`, `ticks`, `errs` and `first` are the loop's own variables; `polls`
    * counts the status reads made before Started was reported, the waits are the
    * sleeps by length, and `failed` says that the session's Failure guard was set.
    */
  datatype Poller = Poller(
    past: bool,
    ticks: nat,
    errs: nat,
    first: bool,
    polls: nat,
    shortWaits: nat,
    longWaits: nat,
    failed: bool,
    ending: Ending)

  const MAX_TICKS := 100
  const ERR_BUDGET := 6
  const IDLE := Poller(false, 0, 0, true, 0, 0, 0, false, Running)

  /** The state the poll leads to: the tun device counts as Started while Started was not reported. */
  function Seen(past: bool, r: Round): Option<NmState> {
    if r.status.Lost? then None
    else
      var t := Target(r.status.major, r.status.minor);
      if !past && t != Some(Stopped) && r.device.Some? && "tun" <= r.device.value then Some(Started) else t
  }

  function Wait(p: Poller): Poller {
    if p.first then p.(first := false)
    else if p.past then p.(longWaits := p.longWaits + 1)
    else p.(shortWaits := p.shortWaits + 1)
  }

  /** A status was read and leads to a target that can be signalled. */
  function Act(p: Poller, target: NmState, r: Round): Poller {
    if target == Started && !p.past then
      if r.guardFree && !r.emitted then p.(failed := true, ending := BadIpConfig)
      else p.(past := true, ticks := 0)
    else if target == Stopped then p.(failed := p.failed || !r.disconnectRequested, ending := SawStopped)
    else p
  }

  /** One pass of the loop. */
  function Pass(p: Poller, r: Round): Poller {
    if !p.ending.Running? then p
    else
      var w := Wait(p).(ticks := p.ticks + 1);
      if !w.past && w.ticks >= MAX_TICKS then w.(failed := w.failed || r.emitter, ending := NeverStarted)
      else
        var q := if w.past then w else w.(polls := w.polls + 1);
        if r.status.Lost? then
          if !q.past then q
          else if q.errs + 1 < ERR_BUDGET then q.(errs := q.errs + 1)
          else q.(errs := q.errs + 1, failed := q.failed || r.emitter, ending := Unreachable)
        else
          var seen := Seen(q.past, r);
          if seen.None? || !r.emitter then q.(errs := 0) else Act(q.(errs := 0), seen.value, r)
  }

  /** The poller after a list of rounds; once it has ended it stays as it is. */
  function Ran(rounds: seq<Round>): Poller
    decreases |rounds|
  {
    if rounds == [] then IDLE else Pass(Ran(rounds[..|rounds| - 1]), rounds[|rounds| - 1])
  }

  /** The loop itself, with its exits in the middle. */
  method Poll(rounds: seq<Round>) returns (p: Poller)
    ensures p == Ran(rounds)
  {
    var past, ticks, errs, first := false, 0, 0, true;
    var polls, shortWaits, longWaits := 0, 0, 0;
    var failed, ending := false, Running;
    var i := 0;
    while i < |rounds|
      invariant 0 <= i <= |rounds|
      invariant ending == Running
      invariant Poller(past, ticks, errs, first, polls, shortWaits, longWaits, failed, ending) == Ran(rounds[..i])
    {
      var r := rounds[i];
      assert rounds[..i + 1][..i] == rounds[..i];
      i := i + 1;
      if !first {
        if past { longWaits := longWaits + 1; } else { shortWaits := shortWaits + 1; }
      }
      first := false;
      ticks := ticks + 1;
      if !past && ticks >= MAX_TICKS {
        failed := failed || r.emitter;
        ending := NeverStarted;
        break;
      }
      if !past { polls := polls + 1; }
      match r.status {
        case Got(major, minor) =>
          errs := 0;
          var target := Target(major, minor);
          if !past && target != Some(Stopped) && r.device.Some? && "tun" <= r.device.value {
            target := Some(Started);
          }
          if target.None? || !r.emitter {
            continue;
          }
          if target.value == Started && !past {
            if r.guardFree && !r.emitted {
              failed := true;
              ending := BadIpConfig;
              break;
            }
            past := true;
            ticks := 0;
          } else if target.value == Stopped {
            failed := failed || !r.disconnectRequested;
            ending := SawStopped;
            break;
          }
        case Lost =>
          if past {
            errs := errs + 1;
            if errs < ERR_BUDGET {
              continue;
            }
            failed := failed || r.emitter;
            ending := Unreachable;
            break;
          }
      }
    }
    p := Poller(past, ticks, errs, first, polls, shortWaits, longWaits, failed, ending);
    assert rounds[..|rounds|] == rounds;
    EndedStays(rounds, i);
  }

  lemma {:induction false} EndedStays(rounds: seq<Round>, k: nat)
    requires k <= |rounds|
    ensures !Ran(rounds[..k]).ending.Running? ==> Ran(rounds) == Ran(rounds[..k])
    decreases |rounds|
  {
    if k < |rounds| {
      var rest := rounds[..|rounds| - 1];
      assert rest[..k] == rounds[..k];
      EndedStays(rest, k);
    } else {
      assert rounds[..k] == rounds;
    }
  }

  // ---------- Budgets ----------

  /** How many rounds at the end of the list failed to read the status. */
  function TrailingLost(rounds: seq<Round>): nat
    decreases |rounds|
  {
    if rounds == [] || !rounds[|rounds| - 1].status.Lost? then 0 else TrailingLost(rounds[..|rounds| - 1]) + 1
  }

  predicate WithinBudget(p: Poller, rounds: seq<Round>) {
    && p.polls <= 99 && p.shortWaits <= 99
    && (p.first <==> p == IDLE)
    && (!p.past && p.ending.Running? ==>
          p.ticks == |rounds| == p.polls && p.ticks < MAX_TICKS && p.errs == 0 && p.longWaits == 0
          && p.shortWaits == (if p.ticks == 0 then 0 else p.ticks - 1))
    && (p.past && p.ending.Running? ==> p.errs == TrailingLost(rounds) && p.errs < ERR_BUDGET)
    && (p.ending.NeverStarted? ==> p.polls == 99 && p.shortWaits == 99 && p.longWaits == 0 && !p.past)
  }

  lemma {:induction false} AlwaysWithinBudget(rounds: seq<Round>)
    ensures WithinBudget(Ran(rounds), rounds)
    decreases |rounds|
  {
    if rounds != [] {
      AlwaysWithinBudget(rounds[..|rounds| - 1]);
    }
  }

  /**
    * Before Started is reported the poller reads the status 99 times at most and
    * sleeps 99 half seconds at most, so it is done within 49.5 seconds of sleep;
    * a hundred rounds never leave it waiting, and giving up uses the whole budget.
    */
  lemma ActivationBudget(rounds: seq<Round>)
    ensures var p := Ran(rounds);
      && p.polls <= 99 && p.shortWaits <= 99
      && (|rounds| >= 100 ==> p.past || !p.ending.Running?)
      && (p.ending.NeverStarted? ==> p.polls == 99 && p.shortWaits == 99)
  {
    AlwaysWithinBudget(rounds);
  }

  /** Once Started was reported, a round ends the poller exactly on Stopped or on the sixth lost read in a row. */
  lemma WatchdogEnds(rounds: seq<Round>, r: Round)
    requires Ran(rounds).past && Ran(rounds).ending.Running?
    ensures var p := Ran(rounds + [r]);
      && (p.ending.SawStopped? <==>
            r.status.Got? && Target(r.status.major, r.status.minor) == Some(Stopped) && r.emitter)
      && (p.ending.Unreachable? <==> TrailingLost(rounds + [r]) == ERR_BUDGET)
      && !p.ending.NeverStarted? && !p.ending.BadIpConfig?
      && p.past
  {
    assert (rounds + [r])[..|rounds|] == rounds;
    AlwaysWithinBudget(rounds);
  }

  /**
    * Where the poller ends it either sent a Failure, or saw Stopped in a round in
    * which a Disconnect had asked for it, or had no emitter to send one with.
    */
  lemma EndsLoudly(rounds: seq<Round>, r: Round)
    requires Ran(rounds).ending.Running? && !Ran(rounds + [r]).ending.Running?
    ensures var p := Ran(rounds + [r]);
      p.failed <==> if p.ending.SawStopped? then !r.disconnectRequested else r.emitter
    ensures Ran(rounds + [r]).ending.SawStopped? || Ran(rounds + [r]).ending.BadIpConfig? ==> r.emitter
  {
    assert (rounds + [r])[..|rounds|] == rounds;
    NotFailedYet(rounds);
  }

  lemma {:induction false} NotFailedYet(rounds: seq<Round>)
    ensures Ran(rounds).ending.Running? ==> !Ran(rounds).failed
    decreases |rounds|
  {
    if rounds != [] {
      NotFailedYet(rounds[..|rounds| - 1]);
    }
  }

  /** The round in which the poller ended. */
  predicate EndsAt(rounds: seq<Round>, k: nat) {
    k < |rounds| && Ran(rounds[..k]).ending.Running? && !Ran(rounds[..k + 1]).ending.Running?
  }

  lemma {:induction false} EndsSomewhere(rounds: seq<Round>) returns (k: nat)
    requires !Ran(rounds).ending.Running?
    ensures EndsAt(rounds, k) && Ran(rounds) == Ran(rounds[..k + 1])
    decreases |rounds|
  {
    var n := |rounds| - 1;
    var rest := rounds[..n];
    if Ran(rest).ending.Running? {
      k := n;
      assert rounds[..n + 1] == rounds;
    } else {
      k := EndsSomewhere(rest);
      assert rest[..k] == rounds[..k] && rest[..k + 1] == rounds[..k + 1];
      EndedStays(rounds, k + 1);
    }
  }

  /** With an emitter at hand the poller ends without a Failure only on a Stopped status that a Disconnect asked for. */
  lemma NeverEndsQuietly(rounds: seq<Round>)
    requires !Ran(rounds).ending.Running? && forall k :: 0 <= k < |rounds| ==> rounds[k].emitter
    ensures exists k: nat :: EndsAt(rounds, k)
              && (Ran(rounds).failed <==> !(Ran(rounds).ending.SawStopped? && rounds[k].disconnectRequested))
  {
    var k := EndsSomewhere(rounds);
    assert rounds[..k + 1] == rounds[..k] + [rounds[k]];
    EndsLoudly(rounds[..k], rounds[k]);
    assert EndsAt(rounds, k);
  }

  // ---------- On the numbers of the wire ----------

  predicate SaysStarted(s: Status) { s.Got? && s.major == 2 && s.minor == 7 }

  /** Disconnected, failed, refused and done on the connection; refused on the session. */
  predicate SaysStopped(s: Status) {
    s.Got? && ((s.major == 2 && s.minor in {9, 10, 11, 16}) || (s.major == 3 && s.minor == 11))
  }

  predicate SeesTunnel(r: Round) { r.device.Some? && "tun" <= r.device.value }

  /** What a status and a device say to a poller that has not reported Started. */
  lemma SeenBefore(r: Round)
    requires r.status.Got?
    ensures Seen(false, r) == Some(Stopped) <==> SaysStopped(r.status)
    ensures Seen(false, r) == Some(Started) <==> !SaysStopped(r.status) && (SaysStarted(r.status) || SeesTunnel(r))
  {}

  predicate Waiting(p: Poller) { p.ending.Running? && !p.past }

  lemma WaitingPass(p: Poller, r: Round)
    requires Waiting(p)
    ensures var q := Pass(p, r);
      var heard := r.status.Got? && r.emitter && p.ticks < 99;
      var starts := heard && Seen(false, r) == Some(Started);
      var stops := heard && Seen(false, r) == Some(Stopped);
      && (p.ticks >= 99 ==> q.ending.NeverStarted? && !q.past)
      && (stops ==> q.ending.SawStopped? && !q.past)
      && (starts && r.guardFree && !r.emitted ==> q.ending.BadIpConfig? && !q.past)
      && (starts && !(r.guardFree && !r.emitted) ==> q.ending.Running? && q.past)
      && (p.ticks < 99 && !starts && !stops ==> q.ending.Running? && !q.past)
  {
    hide Seen;
  }

  /**
    * One more round before Started was reported, from what it learns alone: the
    * hundredth gives up; a Stopped status ends the poller; a Started status, or a
    * tun device under any other status, is reported, unless it is this task's
    * emission and it fails; everything else leaves the poller waiting.
    */
  lemma ActivationRound(rounds: seq<Round>, r: Round)
    requires Ran(rounds).ending.Running? && !Ran(rounds).past
    ensures var p := Ran(rounds + [r]);
      var heard := r.status.Got? && r.emitter && |rounds| < 99;
      var starts := heard && !SaysStopped(r.status) && (SaysStarted(r.status) || SeesTunnel(r));
      && (p.ending.NeverStarted? <==> |rounds| >= 99)
      && (p.ending.SawStopped? <==> heard && SaysStopped(r.status))
      && (p.ending.BadIpConfig? <==> starts && r.guardFree && !r.emitted)
      && (p.past <==> starts && !(r.guardFree && !r.emitted))
      && !p.ending.Unreachable?
  {
    hide Pass, Seen, SaysStopped, SaysStarted, SeesTunnel;
    assert (rounds + [r])[..|rounds|] == rounds;
    AlwaysWithinBudget(rounds);
    WaitingPass(Ran(rounds), r);
    if r.status.Got? {
      SeenBefore(r);
    }
  }

  /** Once Started was reported, only the Stopped statuses of the wire and six lost reads in a row end the poller. */
  lemma WatchdogRound(rounds: seq<Round>, r: Round)
    requires Ran(rounds).past && Ran(rounds).ending.Running?
    ensures Ran(rounds + [r]).ending.Running? <==>
      !(SaysStopped(r.status) && r.emitter) && TrailingLost(rounds + [r]) < 6
  {
    WatchdogEnds(rounds, r);
    assert (rounds + [r])[..|rounds|] == rounds;
    AlwaysWithinBudget(rounds);
  }
}
