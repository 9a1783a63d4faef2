/** What holds in every run of the stream protocol. */
module StreamSafety {
  import opened Prelude
  import M = SignalingManager
  import S = SourceSession
  import opened C = StreamCoordinator
  import opened StreamProtocol
  import I = StreamInvariants

  // ----- Previews -----

  /** No preview is stuck: once startup is over, the call is answered and up, its CallAnswered was
      delivered and nobody is tearing the lease down, the lease is no preview any more, and if it was
      born one it was promoted exactly once. */
  lemma {:induction false} NoStuckPreview(actions: seq<Action>)
    ensures
      var d := Reach(actions).d;
      M.HasAnsweredInboundCall(d.m) && !I.Undelivered(d.m, d.inflight)
        && d.c.leaseID != 0 && !d.c.starting && !d.c.stopping ==>
        && !d.c.previewRinging
        && (d.c.leaseID in d.leases.previews ==> d.leases.promotions[d.c.leaseID] == 1)
  {
    I.ReachInv(actions);
  }

  /** A lease is promoted once at most, only if it was born a preview, and no uplink packet of a
      preview goes through before its promotion. */
  lemma {:induction false} PromotedOnceBeforeUplink(actions: seq<Action>)
    ensures
      var d := Reach(actions).d;
      && (forall l: nat :: d.leases.promotions[l] <= 1 && (l in d.leases.promotions ==> l in d.leases.previews))
      && (forall k <- d.users.admitted ::
            k in d.users.leaseOf
            && (d.users.leaseOf[k] in d.leases.previews ==> d.users.leaseOf[k] in d.leases.promotions))
  {
    I.ReachInv(actions);
  }

  // ----- The uplink -----

  /** The talker belongs to the current lease and is on its fan-out, or its leave lies between its
      removal and its giving the uplink up.  Whoever else spoke on this lease is off the stream and
      will not be let through again. */
  lemma {:induction false} UplinkIsExclusive(actions: seq<Action>)
    ensures
      var s := Reach(actions);
      var d := s.d;
      && (d.c.talker != 0 ==>
            && d.c.talker in d.users.leaseOf && d.users.leaseOf[d.c.talker] == d.c.leaseID
            && (OnStream(d.fans, d.users, d.c.talker) || exists t :: I.IsFreeing(s.threads, t, d.c.talker)))
      && (forall k <- d.users.admitted | k in d.users.leaseOf && k != d.c.talker ::
            !(OnStream(d.fans, d.users, k) && d.users.leaseOf[k] == d.c.leaseID)
            && !Admits(d.c, d.users.leaseOf[k], k, OnStream(d.fans, d.users, k)))
  {
    I.ReachInv(actions);
    var s := Reach(actions);
    if s.d.c.talker in s.d.users.freeing {
      assert I.IsFreeing(s.threads, s.d.users.freeing[s.d.c.talker], s.d.c.talker);
    }
  }

  /** The uplink passes from one consumer to another only through nobody. */
  lemma UplinkPassesThroughNobody(s: Sys, action: Action)
    ensures
      var n := Step(s, action);
      n.d.c.talker == s.d.c.talker || n.d.c.talker == 0 || s.d.c.talker == 0
  {
    if !action.Run? {
      EnvironmentTalkerMoves(s.d, action);
    } else if action.thread in s.threads {
      TalkerMoves(s.d, action.thread, s.threads[action.thread], action.choice);
    }
  }

  lemma EnvironmentTalkerMoves(d: Shared, action: Action)
    ensures Environment(d, action).d.c.talker == d.c.talker || d.c.talker == 0
  {
    match action
    case Speaks(k) => if k in d.users.leaseOf { SpeakerClaims(d.c, d.users.leaseOf[k], k, OnStream(d.fans, d.users, k)); }
    case DeliverEvent => OthersLeaveTalker(d.c, false);
    case TrackFrame(video) => OthersLeaveTalker(d.c, video);
    case StopFrame => OthersLeaveTalker(d.c, false);
    case _ => CoordinatorUntouched(d, action);
  }

  lemma CoordinatorUntouched(d: Shared, action: Action)
    requires !action.Speaks? && !action.DeliverEvent? && !action.TrackFrame? && !action.StopFrame?
    ensures Environment(d, action).d.c == d.c
  {
  }

  lemma SpeakerClaims(c: State, l: nat, k: nat, onStream: bool)
    ensures Speak(c, l, k, onStream).talker == c.talker || c.talker == 0
  {
  }

  lemma OthersLeaveTalker(c: State, video: bool)
    ensures Promote(c).talker == ObserveTrack(c, video).talker == ObserveStop(c).talker == c.talker
  {
  }

  lemma TalkerMoves(d: Shared, t: nat, pc: Pc, choice: nat)
    ensures
      var e := Section(d, t, pc, choice).d;
      e.c.talker == d.c.talker || e.c.talker == 0
  {
    match pc
    case Reserving(ep, mode, ringing, answered) => assert Reserve(d.c, ep, mode, ringing, answered).talker in {0, d.c.talker};
    case FinishingStart(l, answered) => assert FinishStart(d.c, l, answered).talker == d.c.talker;
    case _ =>
  }

  /** A consumer that left is never on a stream again. */
  lemma {:induction false} LeftForGood(actions: seq<Action>, action: Action, k: nat)
    requires k in Reach(actions).d.users.joined
    requires !OnStream(Reach(actions).d.fans, Reach(actions).d.users, k)
    ensures
      var n := Reach(actions + [action]);
      k in n.d.users.joined && !OnStream(n.d.fans, n.d.users, k)
  {
    I.ReachInv(actions);
    assert (actions + [action])[..|actions|] == actions;
    StepStaysOff(Reach(actions), action, k);
  }

  lemma StepStaysOff(s: Sys, action: Action, k: nat)
    requires I.KeyInv(s.d) && I.ThreadInv(s) && k in s.d.users.joined && !OnStream(s.d.fans, s.d.users, k)
    ensures
      var n := Step(s, action);
      k in n.d.users.joined && !OnStream(n.d.fans, n.d.users, k)
  {
    if !action.Run? {
      EnvironmentMovesNobody(s.d, action);
    } else if action.thread in s.threads {
      SectionMovesFans(s.d, action.thread, s.threads[action.thread], action.choice);
      SectionMovesUsers(s.d, action.thread, s.threads[action.thread], action.choice);
      var pc := s.threads[action.thread];
      if pc.JoinAdding? || pc.Adding? { JoinerIsNew(s.d, action.thread, pc); }
      StaysOff(s.d, Step(s, action).d, action.thread, s.threads[action.thread], k);
    }
  }

  /** What a section can do to the fan-outs. */
  ghost predicate FanStep(d: Shared, e: Shared, pc: Pc) {
    || e.fans == d.fans
    || (pc.Reserving? && e.fans == d.fans[d.c.nextID + 1 := Fan({}, false)])
    || ((pc.Stopping? || pc.Clearing?) && e.fans == ClosedFans(d.fans, pc.lease))
    || ((pc.JoinAdding? || pc.Adding?) && pc.lease in d.fans && !d.fans[pc.lease].closed
        && e.fans == WithConsumer(d.fans, pc.lease, pc.consumer))
    || (pc.Removing? && pc.lease in d.fans
        && e.fans == d.fans[pc.lease := WithoutConsumer(d.fans[pc.lease], pc.consumer)])
  }

  ghost predicate UserStep(d: Shared, e: Shared, pc: Pc) {
    && d.users.joined <= e.users.joined
    && (|| e.users.leaseOf == d.users.leaseOf
        || (pc.Reserving? && e.users.leaseOf == d.users.leaseOf[d.c.nextConsumer + 1 := d.c.leaseID])
        || (pc.Reserving? && e.users.leaseOf == d.users.leaseOf[d.c.nextConsumer + 1 := d.c.nextID + 1]))
  }

  lemma EnvironmentMovesNobody(d: Shared, action: Action)
    ensures
      var e := Environment(d, action).d;
      e.fans == d.fans && e.users.joined == d.users.joined && e.users.leaseOf == d.users.leaseOf
  {
  }

  lemma SectionMovesFans(d: Shared, t: nat, pc: Pc, choice: nat)
    ensures FanStep(d, Section(d, t, pc, choice).d, pc)
  {
  }

  lemma ReserveMovesUsers(d: Shared, t: nat, pc: Pc)
    requires pc.Reserving?
    ensures UserStep(d, ReserveSection(d, t, pc.entrypoint, pc.mode, pc.ringing, pc.answered).d, pc)
  {
  }

  lemma SectionMovesUsers(d: Shared, t: nat, pc: Pc, choice: nat)
    ensures UserStep(d, Section(d, t, pc, choice).d, pc)
  {
    if pc.Reserving? { ReserveMovesUsers(d, t, pc); } else { OtherSectionMovesUsers(d, t, pc, choice); }
  }

  lemma OtherSectionMovesUsers(d: Shared, t: nat, pc: Pc, choice: nat)
    requires !pc.Reserving?
    ensures UserStep(d, Section(d, t, pc, choice).d, pc)
  {
  }

  lemma StaysOff(d: Shared, e: Shared, t: nat, pc: Pc, k: nat)
    requires FanStep(d, e, pc) && UserStep(d, e, pc) && I.NameInv(d.c, d.fans.Keys, d.users)
    requires (pc.JoinAdding? || pc.Adding?) ==> pc.consumer !in d.users.joined
    requires k in d.users.joined && !OnStream(d.fans, d.users, k)
    ensures k in e.users.joined && !OnStream(e.fans, e.users, k)
  {
    assert k in d.users.leaseOf && d.users.leaseOf[k] in d.fans;
    assert e.users.leaseOf[k] == d.users.leaseOf[k];
  }

  lemma JoinerIsNew(d: Shared, t: nat, pc: Pc)
    requires I.PcInv(d, t, pc) && (pc.JoinAdding? || pc.Adding?)
    ensures pc.consumer !in d.users.joined
  {
  }

  // ----- Joining and teardown -----

  /** Only the current lease, while nobody tears it down, has an open fan-out, so nobody joins a
      stream that is going away; a stream its last consumer left is closed; a startup still open
      belongs to the current lease or is about to be finished; and the companion owns the stream
      exactly while there is a lease. */
  lemma {:induction false} JoinersMeetALiveStream(actions: seq<Action>)
    ensures
      var s := Reach(actions);
      var d := s.d;
      && (forall l <- d.fans | !d.fans[l].closed :: Current(d.c, l) && !d.c.stopping)
      && (forall k <- d.users.joined ::
            && k in d.users.leaseOf && d.users.leaseOf[k] in d.fans
            && (d.fans[d.users.leaseOf[k]].consumers == {} ==> d.fans[d.users.leaseOf[k]].closed))
      && (forall l <- d.starts | d.starts[l].Open? ::
            Current(d.c, l) || exists t :: I.Holds(s.threads, t, SettlingStop(l)))
      && (d.c.owner.Companion? <==> d.c.leaseID != 0)
  {
    I.ReachInv(actions);
    var s := Reach(actions);
    forall l <- s.d.starts | s.d.starts[l].Open? && !Current(s.d.c, l)
      ensures exists t :: I.Holds(s.threads, t, SettlingStop(l))
    {
      assert I.Holds(s.threads, s.d.leases.settling[l], SettlingStop(l));
    }
  }

  /** A closed fan-out stays closed and only loses consumers. */
  lemma {:induction false} ClosedFansShrink(actions: seq<Action>, action: Action, l: nat)
    requires l in Reach(actions).d.fans && Reach(actions).d.fans[l].closed
    ensures
      var s, n := Reach(actions), Step(Reach(actions), action);
      l in n.d.fans && n.d.fans[l].closed && n.d.fans[l].consumers <= s.d.fans[l].consumers
  {
    I.ReachInv(actions);
    var s := Reach(actions);
    if !action.Run? {
      EnvironmentMovesNobody(s.d, action);
    } else if action.thread in s.threads {
      SectionMovesFans(s.d, action.thread, s.threads[action.thread], action.choice);
      ClosedFanShrinks(s.d, Step(s, action).d, s.threads[action.thread], l);
    }
  }

  lemma ClosedFanShrinks(d: Shared, e: Shared, pc: Pc, l: nat)
    requires I.NameInv(d.c, d.fans.Keys, d.users) && FanStep(d, e, pc) && l in d.fans && d.fans[l].closed
    ensures l in e.fans && e.fans[l].closed && e.fans[l].consumers <= d.fans[l].consumers
  {
  }

  /** Each lease is won by one stop at most.  A stop frame wins only behind a start frame seen during
      the startup of that lease, and a stop that ends the call only once the last consumer released. */
  lemma {:induction false} WonOnce(actions: seq<Action>)
    ensures
      var h := Reach(actions).d.leases;
      && (forall l: nat :: h.wins[l] <= 1)
      && (forall l <- h.wins ::
            && l in h.winner && (h.winner[l].ControlStop? ==> l in h.startFrames)
            && (EndsCall(h.winner[l]) ==> l in h.released))
  {
    I.ReachInv(actions);
  }

  // ----- Borrowed calls -----

  /** Media trouble never ends a call: a session hangs up a call it does not own only if the last
      consumer of the stream that asked it to went through Release.  That stream is the session's
      own, unless its source was attached while its lease was already being torn down.  Each start of
      a session hangs up or reports the end of its call once at most in all. */
  lemma {:induction false} BorrowedCallsSurvive(actions: seq<Action>, x: nat)
    requires x in Reach(actions).d.sessions
    ensures
      var d := Reach(actions).d;
      var y := d.sessions[x];
      && y.hangups + y.reports <= 1
      && (y.borrowedHangups > 0 ==> x in d.askedBy && d.askedBy[x] in d.leases.released)
      && (y.borrowedHangups > 0 && x !in d.late ==> x in d.leases.released)
  {
    I.ReachInv(actions);
    var d := Reach(actions).d;
    assert I.SessionInv(x, d.sessions[x], d.leases.released, d.late, d.askedBy);
  }

  /** The source a stop closes is that of the lease it stops exactly when that source was not
      attached during a teardown. */
  lemma {:induction false} StopClosesItsOwnSource(actions: seq<Action>, l: nat)
    requires Wins(Reach(actions).d.c, l) && Reach(actions).d.c.source.Some?
    ensures
      var d := Reach(actions).d;
      d.c.source == Some(l) <==> d.c.source.value !in d.late
  {
    I.ReachInv(actions);
  }

  /** A stream counts as released when its last consumer, and no other, was removed through Release. */
  lemma ReleasedByLastConsumer(s: Sys, action: Action, l: nat)
    requires l !in s.d.leases.released && l in Step(s, action).d.leases.released
    ensures action.Run? && action.thread in s.threads
    ensures
      var pc, e := s.threads[action.thread], Step(s, action).d;
      && pc.Removing? && pc.lease == l && pc.cause == ConsumerReleased
      && l in s.d.fans && s.d.fans[l].consumers == {pc.consumer}
      && l in e.fans && e.fans[l].consumers == {} && e.fans[l].closed
  {
    if action.Run? && action.thread in s.threads {
      ReleasedHere(s.d, action.thread, s.threads[action.thread], action.choice, l);
    }
  }

  lemma ReleasedHere(d: Shared, t: nat, pc: Pc, choice: nat, l: nat)
    requires l !in d.leases.released && l in Section(d, t, pc, choice).d.leases.released
    ensures
      var e := Section(d, t, pc, choice).d;
      && pc.Removing? && pc.lease == l && pc.cause == ConsumerReleased
      && l in d.fans && d.fans[l].consumers == {pc.consumer}
      && l in e.fans && e.fans[l].consumers == {} && e.fans[l].closed
  {
  }

  // ----- A source attached late -----

  const SHARED := Mode(true, true)

  lemma Extend(actions: seq<Action>, action: Action) returns (longer: seq<Action>, s: Sys)
    ensures longer == actions + [action] && s == Reach(longer) == Step(Reach(actions), action)
  {
    longer := actions + [action];
    assert longer[..|actions|] == actions;
    s := Reach(longer);
  }

  /** A first lease is taken, and the user's hangup starts a teardown before its source exists. */
  lemma TeardownBeforeSource() returns (a: seq<Action>)
    ensures
      var s := Reach(a);
      && s.threads == map[0 := Creating(1, false), 1 := Stopping(1, CallEnded)] && s.nextThread == 2
      && s.d.fans == map[1 := Fan({1}, false)] && s.d.sessions == map[]
      && s.d.c == Reserve(C.INITIAL, "door", SHARED, false, false)
      && s.d.users.leaseOf == map[1 := 1] && s.d.leases.released == {} && s.d.late == {}
      && s.d.m == M.INITIAL
  {
    var s;
    a, s := Extend([], Acquire("door", SHARED));
    a, s := Extend(a, Run(0, 0));
    assert s.threads == map[0 := Probed("door", SHARED, false)];
    a, s := Extend(a, Run(0, 0));
    assert s.threads == map[0 := Reserving("door", SHARED, false, false)];
    a, s := Extend(a, Run(0, 0));
    assert s.threads == map[0 := Adding(1, 1, false)];
    a, s := Extend(a, Run(0, 0));
    assert s.threads == map[0 := Creating(1, false)];
    assert s.d.fans[1].consumers == {1};
    assert s.d.fans == map[1 := Fan({1}, false)];
    a, s := Extend(a, CallEnds);
  }

  lemma SourceMade() returns (a: seq<Action>)
    ensures
      var s := Reach(a);
      && s.threads == map[0 := Attaching(1), 1 := Stopping(1, CallEnded)] && s.nextThread == 2
      && s.d.c == Reserve(C.INITIAL, "door", SHARED, false, false) && s.d.sessions == map[1 := S.START]
      && s.d.leases.released == {} && s.d.late == {} && s.d.fans.Keys == {1} && s.d.m == M.INITIAL
  {
    var s;
    a := TeardownBeforeSource();
    a, s := Extend(a, Run(0, 2));
    assert s.threads == map[0 := Attaching(1), 1 := Stopping(1, CallEnded)];
    assert s.d.sessions == map[1 := S.START];
  }

  /** The source is attached behind the teardown. */
  lemma SourceAttachedLate() returns (a: seq<Action>)
    ensures
      var s := Reach(a);
      && s.threads == map[0 := Starting(1), 1 := Clearing(1, CallEnded)] && s.nextThread == 2
      && s.d.c == Reserve(C.INITIAL, "door", SHARED, false, false).(stopping := true, source := Some(1))
      && s.d.sessions == map[1 := S.START]
      && s.d.leases.released == {} && s.d.late == {1} && s.d.fans.Keys == {1} && s.d.m == M.INITIAL
  {
    var s;
    a := SourceMade();
    a, s := Extend(a, Run(1, 0));
    assert s.threads == map[0 := Attaching(1), 1 := Clearing(1, CallEnded)];
    a, s := Extend(a, Run(0, 0));
    assert s.threads == map[0 := Starting(1), 1 := Clearing(1, CallEnded)];
  }

  const IDLE_WITH_SOURCE := C.INITIAL.(nextID := 1, nextConsumer := 1, source := Some(1))

  lemma LeaseCleared() returns (a: seq<Action>)
    ensures
      var s := Reach(a);
      && s.threads == map[0 := Starting(1), 1 := SettlingStop(1)] && s.nextThread == 2
      && s.d.c == IDLE_WITH_SOURCE && s.d.sessions == map[1 := S.START]
      && s.d.leases.released == {} && s.d.late == {1} && s.d.fans.Keys == {1} && s.d.m == M.INITIAL
  {
    var s;
    a := SourceAttachedLate();
    a, s := Extend(a, Run(1, 0));
    assert s.threads == map[0 := Starting(1), 1 := SettlingStop(1)];
    assert s.d.fans.Keys == {1};
  }

  /** The teardown clears the lease and leaves the source. */
  lemma SourceOutlivesLease() returns (a: seq<Action>)
    ensures
      var s := Reach(a);
      && s.threads == map[0 := Starting(1)] && s.nextThread == 2
      && s.d.c == IDLE_WITH_SOURCE && s.d.sessions == map[1 := S.START]
      && s.d.leases.released == {} && s.d.late == {1} && s.d.fans.Keys == {1} && s.d.m == M.INITIAL
  {
    var s;
    a := LeaseCleared();
    a, s := Extend(a, Run(1, 0));
    assert s.threads == map[0 := Starting(1)];
  }

  const BORROWED := S.Sys(S.INITIAL.(started := true), S.NotRunning, false, true, 0, 0, 0, false)

  lemma LateSourceActivates() returns (a: seq<Action>)
    ensures
      var s := Reach(a);
      && s.threads == map[0 := Starting(1)] && s.nextThread == 4
      && s.d.c == IDLE_WITH_SOURCE && s.d.leases.released == {} && s.d.late == {1}
      && s.d.sessions == map[1 := BORROWED.(s := S.INITIAL.(starting := true), pc := S.Activating(true))]
      && s.d.fans.Keys == {1} && s.d.m == M.INITIAL
  {
    var s;
    a := SourceOutlivesLease();
    a, s := Extend(a, Session(1, S.StartCalled));
    assert s.d.sessions[1].pc == S.Preparing;
    a, s := Extend(a, Session(1, S.DialogReady(false, true)));
    assert s.d.sessions[1].pc == S.Activating(true);
  }

  /** Its session starts, on an answered call it only borrows. */
  lemma LateSourceStarts() returns (a: seq<Action>)
    ensures
      var s := Reach(a);
      && s.threads == map[0 := Starting(1)] && s.nextThread == 6
      && s.d.c == IDLE_WITH_SOURCE && s.d.sessions == map[1 := BORROWED]
      && s.d.leases.released == {} && s.d.late == {1} && s.d.fans.Keys == {1} && s.d.m == M.INITIAL
  {
    var s;
    a := LateSourceActivates();
    a, s := Extend(a, Session(1, S.StartGoesOn(true)));
    assert s.d.sessions[1].pc == S.Ending(true);
    a, s := Extend(a, Session(1, S.StartGoesOn(true)));
    assert s.d.sessions[1] == BORROWED;
  }

  lemma SecondAcquire() returns (a: seq<Action>)
    ensures
      var s := Reach(a);
      && 6 in s.threads && s.threads[6] == Reserving("door", SHARED, false, false) && s.nextThread == 7
      && s.d.c == IDLE_WITH_SOURCE && s.d.sessions == map[1 := BORROWED]
      && s.d.leases.released == {} && s.d.late == {1} && s.d.fans.Keys == {1}
  {
    var s;
    a := LateSourceStarts();
    a, s := Extend(a, Acquire("door", SHARED));
    a, s := Extend(a, Run(6, 0));
    assert 6 in s.threads && s.threads[6] == Probed("door", SHARED, false);
    a, s := Extend(a, Run(6, 0));
  }

  /** A second lease has its consumer, but no source of its own yet. */
  lemma SecondLease() returns (a: seq<Action>)
    ensures
      var s := Reach(a);
      && s.nextThread == 7
      && s.d.c.leaseID == 2 && !s.d.c.stopping && s.d.c.source == Some(1) && s.d.c.talker == 0
      && 2 in s.d.fans && s.d.fans[2] == Fan({2}, false) && 2 in s.d.users.leaseOf && s.d.users.leaseOf[2] == 2
      && s.d.sessions == map[1 := BORROWED] && s.d.leases.released == {} && s.d.late == {1}
  {
    var s;
    a := SecondAcquire();
    a, s := Extend(a, Run(6, 0));
    assert s.threads[6] == Adding(2, 2, false);
    a, s := Extend(a, Run(6, 0));
    assert s.d.fans[2].consumers == {2};
  }

  lemma SecondLeaves() returns (a: seq<Action>)
    ensures
      var s := Reach(a);
      && 7 in s.threads && s.threads[7] == Removing(2, 2, ConsumerReleased)
      && s.d.c.leaseID == 2 && !s.d.c.stopping && s.d.c.source == Some(1) && s.d.c.talker == 0
      && 2 in s.d.fans && s.d.fans[2] == Fan({2}, false)
      && s.d.sessions == map[1 := BORROWED] && s.d.leases.released == {} && s.d.late == {1}
  {
    var s;
    a := SecondLease();
    a, s := Extend(a, LetGo(2, true));
    assert 7 in s.threads && s.threads[7] == Leaving(2, 2, ConsumerReleased);
    a, s := Extend(a, Run(7, 0));
  }

  /** Its consumer lets go for good. */
  lemma SecondLeaseReleased() returns (a: seq<Action>)
    ensures
      var s := Reach(a);
      && 7 in s.threads && s.threads[7] == FreeingUplink(2, 2, ConsumerReleased, true)
      && s.d.c.leaseID == 2 && !s.d.c.stopping && s.d.c.source == Some(1) && s.d.c.talker == 0
      && s.d.sessions == map[1 := BORROWED] && s.d.leases.released == {2} && s.d.late == {1}
  {
    var s;
    a := SecondLeaves();
    assert WithoutConsumer(Fan({2}, false), 2) == Fan({}, true);
    a, s := Extend(a, Run(7, 0));
  }

  /** The teardown finds the first lease's source. */
  lemma SecondTeardown() returns (a: seq<Action>)
    ensures
      var s := Reach(a);
      && 7 in s.threads && s.threads[7] == Telling(2, 1, ConsumerReleased)
      && s.d.sessions == map[1 := BORROWED] && s.d.leases.released == {2} && s.d.late == {1}
  {
    var s;
    a := SecondLeaseReleased();
    a, s := Extend(a, Run(7, 0));
    assert s.threads[7] == Stopping(2, ConsumerReleased);
    a, s := Extend(a, Run(7, 0));
  }

  /** The exception of `BorrowedCallsSurvive` does happen: a teardown that a consumer of the second
      lease asked for hangs up the borrowed call of the first lease's session, which nobody let go. */
  lemma LateSourceIsHungUp() returns (a: seq<Action>)
    ensures
      var d := Reach(a).d;
      && 1 in d.sessions && d.sessions[1].borrowedHangups == 1
      && 1 !in d.leases.released && 2 in d.leases.released && d.late == {1}
  {
    var s;
    a := SecondTeardown();
    a, s := Extend(a, Run(7, 0));
    assert s.threads[7] == Closing(2, 1, ConsumerReleased);
    assert s.d.sessions[1].s.endCallOnClose && s.d.sessions[1].s.started;
    a, s := Extend(a, Run(7, 0));
  }
}
