/**
  * What a Connect and a Disconnect come to, for every run and every answer of
  * the backend, in terms of the answers the call itself was given.
  */
module Outcomes {
  import opened Text
  import opened Sessions
  import opened Protocol
  import opened Runs
  import opened Histories

  const COURSE: seq<Question> := [Vacant, Profile, NoFlag, Imports, Tunnels, NoFlag, Ready, NoFlag, Connects]

  /** The call was given an answer that ends it. */
  predicate Failed(trail: seq<Fact>) { exists k :: 0 <= k < |trail| && !trail[k].good }

  lemma TrailOf(run: seq<Action>, i: nat)
    requires i < |After(START, run).conns|
    ensures CourseFits(After(START, run).conns[i], PastAfter(run, i))
    ensures Counted(After(START, run).conns[i].pc, PastAfter(run, i).trail)
  {
    hide After, PastAfter, CourseFits, StartsFit, RecordFits, NamesFit, Kept;
    TraceAfter(run, i);
    assert CourseFits(After(START, run).conns[i], PastAfter(run, i));
    Staged(After(START, run).conns[i], PastAfter(run, i));
  }

  lemma Staged(c: Conn, p: Past)
    requires CourseFits(c, p)
    ensures StageFits(c.pc, p) && Counted(c.pc, p.trail)
  {
    hide StageFits, Counted, HangsFit, WordsFit;
    StageCounts(c.pc, p);
  }

  lemma StageIsCourse(pc: ConnPc, p: Past)
    requires StageFits(pc, p)
    ensures |p.trail| <= 9
    ensures forall k :: 0 <= k < |p.trail| ==> p.trail[k].asked == Course(k) && (k < |p.trail| - 1 ==> p.trail[k].good)
  {}

  /** The questions come in their order, and none is asked after a bad answer. */
  lemma QuestionsInOrder(run: seq<Action>, i: nat)
    ensures var trail := PastAfter(run, i).trail;
      && |trail| <= |COURSE|
      && (forall k :: 0 <= k < |trail| ==> trail[k].asked == COURSE[k])
      && (forall k :: 0 <= k < |trail| - 1 ==> trail[k].good)
  {
    hide After, PastAfter, StartsFit, RecordFits, NamesFit, Kept, HangsFit, WordsFit, StageFits;
    TraceAfter(run, i);
    StageIsCourse(Self(After(START, run), i).pc, PastAfter(run, i));
  }

  /** In a trail of such a shape an answer is found where its question stands in the course. */
  lemma AnswerAt(trail: seq<Fact>, n: nat)
    requires |trail| <= 9 && n < 9 && n != 2 && n != 5 && n != 7
    requires forall k :: 0 <= k < |trail| ==> trail[k].asked == Course(k) && (k < |trail| - 1 ==> trail[k].good)
    ensures Fact(Course(n), true) in trail <==> Good(trail) > n
    ensures Fact(Course(n), false) in trail <==> Bad(trail) && |trail| == n + 1
    ensures Bad(trail) <==> Failed(trail)
  {
    if n < |trail| {
      assert trail[n].asked == Course(n);
    }
  }

  lemma AnswersOf(run: seq<Action>, i: nat)
    ensures var trail := PastAfter(run, i).trail;
      && (Bad(trail) <==> Failed(trail))
      && (Fact(Imports, true) in trail <==> Good(trail) > 3)
      && (Fact(Tunnels, true) in trail <==> Good(trail) > 4)
      && (Fact(Ready, true) in trail <==> Good(trail) > 6)
      && (Fact(Connects, true) in trail <==> Good(trail) > 8)
      && (Fact(Connects, false) in trail <==> Bad(trail) && |trail| == 9)
  {
    hide After, PastAfter, StartsFit, RecordFits, NamesFit, Kept, HangsFit, WordsFit, StageFits, Bad, Good;
    var p := PastAfter(run, i);
    TraceAfter(run, i);
    StageIsCourse(Self(After(START, run), i).pc, p);
    AnswerAt(p.trail, 3);
    AnswerAt(p.trail, 4);
    AnswerAt(p.trail, 6);
    AnswerAt(p.trail, 8);
  }

  /**
    * What a Connect that has returned told NetworkManager: nothing if every
    * answer was good or its report saw the flag, Stopped and Failure otherwise.
    */
  lemma ConnectReports(run: seq<Action>, i: nat)
    requires i < |After(START, run).conns| && After(START, run).conns[i].pc.Done?
    ensures var said, p := After(START, run).conns[i].said, PastAfter(run, i);
      && (!Failed(p.trail) <==> |p.trail| == 9 && Fact(Connects, true) in p.trail)
      && (p.flagSeen.Some? <==> Failed(p.trail))
      && said == if !Failed(p.trail) || p.flagSeen == Some(true) then [] else [StoppedSignal, FailureSignal]
  {
    hide After, PastAfter, Failed, Bad, OnCourse, StageFits;
    TrailOf(run, i);
    AnswersOf(run, i);
    var c, p := After(START, run).conns[i], PastAfter(run, i);
    EndedCourse(c, p);
    match p.flagSeen {
      case None =>
      case Some(seen) => assert seen || p.flagSeen == Some(false);
    }
  }

  lemma EndedCourse(c: Conn, p: Past)
    requires CourseFits(c, p) && (c.pc.Done? || c.pc.Leave?)
    ensures OnCourse(p.trail, 9) <==> !Bad(p.trail)
    ensures if Bad(p.trail) && |p.trail| >= 6 then Hung(p.hangs) else p.hangs == []
  {
    if OnCourse(p.trail, 9) {
      NotBoth(p.trail, 9);
    }
  }

  /** What a history leaves behind, as the trace says it. */
  lemma LeftBehind(run: seq<Action>, i: nat)
    ensures var s, p := After(START, run), PastAfter(run, i);
      && StartsFit(s, i, p) && RecordFits(s, i, p)
      && (Kept(s, i, p) ==> AbortsFit(s, i, p) && ClearsFit(s, i, p) && RestFits(s, i, p))
  {
    hide After, PastAfter, CourseFits, StartsFit, RecordFits, NamesFit, Kept, AbortsFit, ClearsFit, RestFits;
    TraceAfter(run, i);
  }

  /**
    * At every moment: session.Connect is called only when it was asked, and no
    * task is there without the answer it waits for; once the Connect has
    * returned, each is there exactly with that answer.
    */
  lemma ConnectStarts(run: seq<Action>, i: nat)
    ensures var b, trail := After(START, run).backend, PastAfter(run, i).trail;
      && (i in b.dialled <==> Fact(Connects, true) in trail || Fact(Connects, false) in trail)
      && (Handle(i, Listener) in b.spawned || Handle(i, Attention) in b.spawned ==> Fact(Ready, true) in trail)
      && (Handle(i, Poller) in b.spawned || Handle(i, Stats) in b.spawned ==> Fact(Connects, true) in trail)
    ensures var s, trail := After(START, run), PastAfter(run, i).trail;
      i < |s.conns| && s.conns[i].pc.Done? ==>
        && (Fact(Ready, true) in trail ==> {Handle(i, Listener), Handle(i, Attention)} <= s.backend.spawned)
        && (Fact(Connects, true) in trail ==> {Handle(i, Poller), Handle(i, Stats)} <= s.backend.spawned)
  {
    hide After, PastAfter, RecordFits, AbortsFit, ClearsFit, RestFits, Failed;
    LeftBehind(run, i);
    AnswersOf(run, i);
    QuestionsInOrder(run, i);
  }

  /**
    * A Connect that failed leaves nothing: its session is not in the record, was
    * asked to go and is there only if it refused twice; its config had Remove
    * called; its tasks are aborted.
    */
  lemma FailedConnectLeavesNothing(run: seq<Action>, i: nat)
    requires i < |After(START, run).conns| && After(START, run).conns[i].pc.Done?
    requires Failed(PastAfter(run, i).trail)
    ensures var s, p := After(START, run), PastAfter(run, i);
      && s.record.path != Some(i) && s.record.config != Some(i)
      && (if Fact(Tunnels, true) in p.trail then Hung(p.hangs) else p.hangs == [])
      && (i in s.backend.givenUp <==> p.hangs == [false, false])
      && (i in s.backend.live ==> i in s.backend.givenUp)
      && (i in s.backend.removed <==> Fact(Imports, true) in p.trail)
      && (i in s.backend.configs ==> i in s.backend.removed)
      && (forall kind :: Handle(i, kind) in s.backend.spawned ==> Handle(i, kind) in s.backend.aborted)
  {
    hide After, PastAfter, Failed, Bad, StartsFit, StageFits, WordsFit, OnCourse, Fails;
    LeftBehind(run, i);
    AnswersOf(run, i);
    TrailOf(run, i);
    EndedCourse(After(START, run).conns[i], PastAfter(run, i));
    RunIsGood(run);
    assert RecordIsWhole(After(START, run)) by {
      hide LockIsExclusive, HolderFits, Accounted, AllSound;
    }
  }

  /**
    * A Connect that was answered well throughout hands over, as it returns, a
    * record with its session, its config, its guards, its credentials and its
    * four tasks, and none of it was taken back.
    */
  lemma SucceededConnectHandsOver(run: seq<Action>, i: nat)
    requires i < |After(START, run).conns| && After(START, run).conns[i].pc.Leave?
    requires !Failed(PastAfter(run, i).trail)
    ensures var s, p := After(START, run), PastAfter(run, i);
      var four := {Handle(i, Listener), Handle(i, Attention), Handle(i, Poller), Handle(i, Stats)};
      && s.record == Record(Some(i), Some(i), Some(i), four, true)
      && i !in s.backend.givenUp && i !in s.backend.removed && i in s.backend.dialled
      && (i in s.backend.live || p.lostSession) && (i in s.backend.configs || p.lostConfig)
      && !s.conns[i].session.shared.disconnectRequested && !s.conns[i].session.shared.hungUp
  {
    hide After, PastAfter, Failed, StageFits, WordsFit, OnCourse, Fails;
    LeftBehind(run, i);
    AnswersOf(run, i);
    TrailOf(run, i);
    var s := After(START, run);
    EndedCourse(s.conns[i], PastAfter(run, i));
    forall h | h in s.record.tasks ensures h.kind.Listener? || h.kind.Attention? || h.kind.Poller? || h.kind.Stats? {}
    assert s.record.tasks == {Handle(i, Listener), Handle(i, Attention), Handle(i, Poller), Handle(i, Stats)};
  }

  // ---------- An error is final ----------

  lemma {:induction false} HistoryGrows(run: seq<Action>, more: seq<Action>, i: nat)
    ensures PastAfter(run, i).trail <= PastAfter(run + more, i).trail
    decreases |more|
  {
    if more == [] {
      assert run + more == run;
    } else {
      var rest := more[..|more| - 1];
      assert (run + more)[..|run + more| - 1] == run + rest;
      HistoryGrows(run, rest, i);
      hide PastAfter, After;
      PastUnfolds(run + more, i);
      WitnessAppends(After(START, run + rest), (run + more)[|run + more| - 1], i, PastAfter(run + rest, i));
    }
  }

  lemma PastUnfolds(run: seq<Action>, i: nat)
    requires run != []
    ensures var rest := run[..|run| - 1];
      PastAfter(run, i) == Witness(After(START, rest), run[|run| - 1], i, PastAfter(rest, i))
  {
    hide After, Witness;
  }

  lemma WitnessAppends(s: State, a: Action, i: nat, p: Past)
    ensures p.trail <= Witness(s, a, i, p).trail
  {}

  /** After a bad answer nothing more is asked, whatever runs afterwards. */
  lemma ErrorIsFinal(run: seq<Action>, more: seq<Action>, i: nat)
    requires Failed(PastAfter(run, i).trail)
    ensures PastAfter(run + more, i).trail == PastAfter(run, i).trail
  {
    hide After, PastAfter;
    HistoryGrows(run, more, i);
    QuestionsInOrder(run + more, i);
    var before, now := PastAfter(run, i).trail, PastAfter(run + more, i).trail;
    var k :| 0 <= k < |before| && !before[k].good;
    assert now[k] == before[k];
  }

  /**
    * session.Connect was answered with an error: in every continuation neither
    * the poller nor the statistics timer of this Connect is ever there, and once
    * it has returned its session is not in the record, is left only if it
    * refused twice to go, and Stopped and Failure were reported unless the
    * report saw the flag.
    */
  lemma RefusedDialIsAFailure(run: seq<Action>, more: seq<Action>, i: nat)
    requires Fact(Connects, false) in PastAfter(run, i).trail
    ensures var s, p := After(START, run + more), PastAfter(run + more, i);
      && Handle(i, Poller) !in s.backend.spawned && Handle(i, Stats) !in s.backend.spawned
      && (i < |s.conns| && s.conns[i].pc.Done? ==>
            && s.record.path != Some(i) && (i in s.backend.live ==> p.hangs == [false, false])
            && s.conns[i].said == if p.flagSeen == Some(true) then [] else [StoppedSignal, FailureSignal])
  {
    hide After, PastAfter;
    var s, p := After(START, run + more), PastAfter(run + more, i);
    FailedBy(PastAfter(run, i).trail, Connects);
    ErrorIsFinal(run, more, i);
    hide Failed;
    AnswersOf(run + more, i);
    ConnectStarts(run + more, i);
    if i < |s.conns| && s.conns[i].pc.Done? {
      ConnectReports(run + more, i);
      FailedConnectLeavesNothing(run + more, i);
    }
  }

  lemma FailedBy(trail: seq<Fact>, q: Question)
    requires Fact(q, false) in trail
    ensures Failed(trail)
  {
    var k :| 0 <= k < |trail| && trail[k] == Fact(q, false);
    assert !trail[k].good;
  }

  /**
    * The same for an error of the profile, of Import, of NewTunnel or of the wait
    * for the session: session.Connect is never called and no task of this
    * Connect is ever there.
    */
  lemma EarlyErrorIsAFailure(run: seq<Action>, more: seq<Action>, i: nat, q: Question)
    requires q == Profile || q == Imports || q == Tunnels || q == Ready
    requires Fact(q, false) in PastAfter(run, i).trail
    ensures var s, p := After(START, run + more), PastAfter(run + more, i);
      && i !in s.backend.dialled && (forall h :: h in s.backend.spawned ==> h.session != i)
      && (i < |s.conns| && s.conns[i].pc.Done? ==>
            && s.record.path != Some(i) && (i in s.backend.live ==> q == Ready && p.hangs == [false, false])
            && (i in s.backend.configs ==> i in s.backend.removed)
            && s.conns[i].said == if p.flagSeen == Some(true) then [] else [StoppedSignal, FailureSignal])
  {
    hide After, PastAfter;
    var s, p := After(START, run + more), PastAfter(run + more, i);
    FailedBy(PastAfter(run, i).trail, q);
    ErrorIsFinal(run, more, i);
    hide Failed;
    EarlyMeansShort(run + more, i, q);
    LeftBehind(run + more, i);
    NothingStarted(s, i, p);
    ConnectStarts(run + more, i);
    if i < |s.conns| && s.conns[i].pc.Done? {
      ConnectReports(run + more, i);
      FailedConnectLeavesNothing(run + more, i);
    }
  }

  lemma EarlyMeansShort(run: seq<Action>, i: nat, q: Question)
    requires q == Profile || q == Imports || q == Tunnels || q == Ready
    requires Fact(q, false) in PastAfter(run, i).trail
    ensures var trail := PastAfter(run, i).trail;
      Bad(trail) && |trail| <= 7 && (|trail| > 5 ==> q == Ready) && Good(trail) < 7
      && Fact(Connects, true) !in trail && Fact(Connects, false) !in trail && Fact(Ready, true) !in trail
      && (Fact(Tunnels, true) in trail ==> q == Ready)
  {
    hide After, PastAfter;
    QuestionsInOrder(run, i);
    var trail := PastAfter(run, i).trail;
    var k :| 0 <= k < |trail| && trail[k] == Fact(q, false);
    assert k == |trail| - 1;
  }

  /** A Connect that has returned in silence, and saw no flag, was answered well throughout. */
  lemma SilentMeansAnswered(run: seq<Action>, i: nat)
    requires i < |After(START, run).conns| && After(START, run).conns[i].pc.Done?
    requires After(START, run).conns[i].said == [] && PastAfter(run, i).flagSeen != Some(true)
    ensures PastAfter(run, i).trail ==
      [Fact(Vacant, true), Fact(Profile, true), Fact(NoFlag, true), Fact(Imports, true), Fact(Tunnels, true),
       Fact(NoFlag, true), Fact(Ready, true), Fact(NoFlag, true), Fact(Connects, true)]
  {
    hide After, PastAfter;
    ConnectReports(run, i);
    QuestionsInOrder(run, i);
    var trail := PastAfter(run, i).trail;
    forall k | 0 <= k < |trail| ensures trail[k] == Fact(COURSE[k], true) {
      assert trail[k].good;
    }
  }
}
