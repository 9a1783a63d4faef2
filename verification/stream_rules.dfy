/** Who gets a stream, when it is promoted and how it ends: what holds in every run of the stream
    protocol beyond its safety (`StreamSafety`). */
module StreamRules {
  import opened Prelude
  import M = SignalingManager
  import S = SourceSession
  import opened C = StreamCoordinator
  import opened StreamProtocol
  import I = StreamInvariants

  // ----- The leases at which an answered call was seen -----

  /** An answer is seen for a lease when its CallAnswered is delivered while the lease is current, or
      when the probe at the end of startup finds the call answered. */
  function Sees(s: Sys, action: Action): set<nat> {
    if action.DeliverEvent? && s.d.inflight.Some? && s.d.inflight.value.CallAnswered? && s.d.c.leaseID != 0
    then {s.d.c.leaseID}
    else if action.Run? && action.thread in s.threads && s.threads[action.thread].StartedOk?
            && M.HasAnsweredInboundCall(s.d.m)
    then {s.threads[action.thread].lease}
    else {}
  }

  function Seen(actions: seq<Action>): set<nat> {
    if actions == [] then {}
    else Seen(actions[..|actions| - 1]) + Sees(Reach(actions[..|actions| - 1]), actions[|actions| - 1])
  }

  // ----- Invariants -----

  /** Every consumer gets the door it asked for, only in a mode that allows the ring its probe saw, and
      shares a stream only if it and the stream's first consumer are of the sharing kind. */
  ghost predicate DoorInv(d: Shared) {
    && d.users.asked.Keys == d.users.leaseOf.Keys && d.leases.first.Keys == d.fans.Keys
    && (forall l <- d.fans :: d.leases.first[l] in d.users.leaseOf && d.users.leaseOf[d.leases.first[l]] == l)
    && (forall k <- d.users.leaseOf :: d.users.leaseOf[k] in d.fans && Fits(d, k, d.users.leaseOf[k]))
    && (d.c.leaseID != 0 ==>
          && d.c.leaseID in d.fans && d.leases.first[d.c.leaseID] in d.users.asked
          && Describes(d.c, d.users.asked[d.leases.first[d.c.leaseID]]))
    && (forall l <- d.fans :: l in d.leases.previews <==> d.users.asked[d.leases.first[l]].ringing)
  }

  ghost predicate Fits(d: Shared, k: nat, l: nat)
    requires k in d.users.asked && l in d.leases.first && d.leases.first[l] in d.users.asked
  {
    var ask, born := d.users.asked[k], d.users.asked[d.leases.first[l]];
    && ask.entrypoint == born.entrypoint && (ask.ringing ==> ask.mode.allowRinging)
    && (k != d.leases.first[l] ==> ask.mode.shareable && born.mode.shareable)
  }

  ghost predicate Describes(c: State, born: Ask) {
    c.entrypoint == born.entrypoint && c.shared == born.mode.shareable
  }

  lemma JoinKeepsDoors(d: Shared, t: nat, ask: Ask, e: Shared, l: nat, k: nat)
    requires DoorInv(d) && l == d.c.leaseID != 0 && k !in d.users.leaseOf
    requires ask.entrypoint == d.c.entrypoint && d.c.shared && ask.mode.shareable && (ask.ringing ==> ask.mode.allowRinging)
    requires e == d.(c := d.c.(nextConsumer := k), users := Issued(d.users, k, l, t, ask))
    ensures DoorInv(e)
  {
    forall x <- e.users.leaseOf
      ensures e.users.leaseOf[x] in e.fans && Fits(e, x, e.users.leaseOf[x])
    {
      assert x != k ==> Fits(d, x, d.users.leaseOf[x]);
    }
  }

  lemma NewKeepsDoors(d: Shared, t: nat, ask: Ask, e: Shared, l: nat, k: nat)
    requires DoorInv(d) && l !in d.fans && k !in d.users.leaseOf && l != 0 && l !in d.leases.previews
    requires e.c.leaseID == l && e.c.entrypoint == ask.entrypoint && e.c.shared == ask.mode.shareable
    requires ask.ringing ==> ask.mode.allowRinging
    requires e.fans.Keys == d.fans.Keys + {l} && e.users == Issued(d.users, k, l, t, ask)
    requires e.leases.first == d.leases.first[l := k] && e.leases.previews == d.leases.previews + If(ask.ringing, l)
    ensures DoorInv(e)
  {
    FitsAllStay(d, e, k, l);
    FirstsStay(d, e, k, l);
    assert e.leases.first.Keys == e.fans.Keys && e.users.asked.Keys == e.users.leaseOf.Keys;
  }

  lemma FirstsStay(d: Shared, e: Shared, k: nat, l: nat)
    requires DoorInv(d) && l !in d.fans && k !in d.users.leaseOf && l !in d.leases.previews
    requires e.leases.first == d.leases.first[l := k] && e.fans.Keys == d.fans.Keys + {l}
    requires k in e.users.asked && e.users.asked == d.users.asked[k := e.users.asked[k]]
    requires e.users.leaseOf == d.users.leaseOf[k := l]
    requires e.leases.previews == d.leases.previews + If(e.users.asked[k].ringing, l)
    ensures forall m <- e.fans ::
              && m in e.leases.first && e.leases.first[m] in e.users.leaseOf && e.users.leaseOf[e.leases.first[m]] == m
              && e.leases.first[m] in e.users.asked
              && (m in e.leases.previews <==> e.users.asked[e.leases.first[m]].ringing)
  {
    forall m <- e.fans
      ensures m in e.leases.first && e.leases.first[m] in e.users.leaseOf && e.users.leaseOf[e.leases.first[m]] == m
      ensures e.leases.first[m] in e.users.asked
      ensures m in e.leases.previews <==> e.users.asked[e.leases.first[m]].ringing
    {
      if m != l { assert m in d.fans && d.leases.first[m] != k; }
    }
  }

  lemma FitsAllStay(d: Shared, e: Shared, k: nat, l: nat)
    requires DoorInv(d) && l !in d.fans && k !in d.users.leaseOf
    requires e.leases.first == d.leases.first[l := k]
    requires k in e.users.asked && e.users.asked == d.users.asked[k := e.users.asked[k]]
    requires e.users.leaseOf == d.users.leaseOf[k := l] && (e.users.asked[k].ringing ==> e.users.asked[k].mode.allowRinging)
    requires e.fans.Keys == d.fans.Keys + {l}
    ensures forall x <- e.users.leaseOf :: e.users.leaseOf[x] in e.fans && Fits(e, x, e.users.leaseOf[x])
  {
    forall x <- e.users.leaseOf
      ensures e.users.leaseOf[x] in e.fans && Fits(e, x, e.users.leaseOf[x])
    {
      if x != k {
        assert Fits(d, x, d.users.leaseOf[x]);
        FitStays(d, e, x, d.users.leaseOf[x], k, l);
      }
    }
  }

  lemma FitStays(d: Shared, e: Shared, x: nat, m: nat, k: nat, l: nat)
    requires x in d.users.asked && m in d.leases.first && d.leases.first[m] in d.users.asked && Fits(d, x, m)
    requires k !in d.users.asked && m != l && l !in d.leases.first
    requires e.leases.first == d.leases.first[l := k]
    requires forall y <- d.users.asked :: y in e.users.asked && e.users.asked[y] == d.users.asked[y]
    ensures Fits(e, x, m)
  {
  }

  lemma ReserveKeepsDoors(d: Shared, t: nat, ep: string, mode: Mode, ringing: bool, answered: bool)
    requires I.KeyInv(d) && DoorInv(d)
    ensures DoorInv(ReserveSection(d, t, ep, mode, ringing, answered).d)
  {
    var o := ReserveSection(d, t, ep, mode, ringing, answered);
    match Decide(d.c, ep, mode, ringing, answered)
    case Refused(_) =>
    case Join(_, _) => JoiningKeepsDoors(d, t, ep, mode, ringing, answered, o);
    case New(_, _, _) => StartingKeepsDoors(d, t, ep, mode, ringing, answered, o);
  }

  lemma JoiningKeepsDoors(d: Shared, t: nat, ep: string, mode: Mode, ringing: bool, answered: bool, o: Outcome)
    requires I.KeyInv(d) && DoorInv(d) && Decide(d.c, ep, mode, ringing, answered).Join?
    requires o == ReserveSection(d, t, ep, mode, ringing, answered)
    ensures DoorInv(o.d)
  {
    I.JoinLeaves(d, t, ep, mode, ringing, answered, o);
    assert d.c.nextConsumer + 1 !in d.users.leaseOf;
    JoinKeepsDoors(d, t, Ask(ep, mode, ringing, answered), o.d, d.c.leaseID, d.c.nextConsumer + 1);
  }

  lemma StartingKeepsDoors(d: Shared, t: nat, ep: string, mode: Mode, ringing: bool, answered: bool, o: Outcome)
    requires I.KeyInv(d) && DoorInv(d) && Decide(d.c, ep, mode, ringing, answered).New?
    requires o == ReserveSection(d, t, ep, mode, ringing, answered)
    ensures DoorInv(o.d)
  {
    var l, k := d.c.nextID + 1, d.c.nextConsumer + 1;
    assert k !in d.users.leaseOf && l !in d.fans;
    NewKeepsDoors(d, t, Ask(ep, mode, ringing, answered), o.d, l, k);
  }

  /** What keeps the doors: the same consumers and leases, and the same lease, or none. */
  ghost predicate SameDoors(d: Shared, e: Shared) {
    && e.users.asked == d.users.asked && e.users.leaseOf == d.users.leaseOf && e.leases.first == d.leases.first
    && e.leases.previews == d.leases.previews && e.fans.Keys == d.fans.Keys
    && (e.c.leaseID == 0 || (e.c.leaseID == d.c.leaseID && e.c.entrypoint == d.c.entrypoint && e.c.shared == d.c.shared))
  }

  lemma SameDoorsKeep(d: Shared, e: Shared)
    requires DoorInv(d) && SameDoors(d, e)
    ensures DoorInv(e)
  {
    forall k <- e.users.leaseOf
      ensures e.users.leaseOf[k] in e.fans && Fits(e, k, e.users.leaseOf[k])
    {
      assert Fits(d, k, d.users.leaseOf[k]);
    }
  }

  lemma SectionKeepsDoors(d: Shared, t: nat, pc: Pc, choice: nat)
    requires I.KeyInv(d) && DoorInv(d) && I.PcInv(d, t, pc)
    ensures DoorInv(Section(d, t, pc, choice).d)
  {
    if pc.Reserving? {
      ReserveKeepsDoors(d, t, pc.entrypoint, pc.mode, pc.ringing, pc.answered);
    } else {
      SectionLeavesDoors(d, t, pc, choice);
      SameDoorsKeep(d, Section(d, t, pc, choice).d);
    }
  }

  predicate Acquiring(pc: Pc) {
    pc.Probing? || pc.Probed? || pc.JoinWaiting? || pc.JoinAdding? || pc.Adding? || pc.Creating? || pc.Attaching?
  }

  predicate Starts(pc: Pc) {
    pc.Starting? || pc.StartedOk? || pc.FinishingStart? || pc.SettlingStart? || pc.Leaving? || pc.Removing?
  }

  lemma AddLeavesDoors(d: Shared, l: nat, k: nat, next: Option<Pc>)
    ensures SameDoors(d, AddSection(d, l, k, next).d)
  {
  }

  lemma AttachLeavesDoors(d: Shared, l: nat)
    ensures SameDoors(d, AttachSection(d, l).d)
  {
  }

  lemma CreateLeavesDoors(d: Shared, l: nat, preview: bool, choice: nat)
    ensures SameDoors(d, CreateSection(d, l, preview, choice).d)
  {
  }

  lemma AcquiringLeavesDoors(d: Shared, t: nat, pc: Pc, choice: nat)
    requires Acquiring(pc)
    ensures SameDoors(d, Section(d, t, pc, choice).d)
  {
    match pc
    case JoinAdding(l, k) => AddLeavesDoors(d, l, k, None);
    case Adding(l, k, preview) => AddLeavesDoors(d, l, k, Some(Creating(l, preview)));
    case Creating(l, preview) => CreateLeavesDoors(d, l, preview, choice);
    case Attaching(l) => AttachLeavesDoors(d, l);
    case _ =>
  }

  lemma StartingLeavesDoors(d: Shared, t: nat, pc: Pc, choice: nat)
    requires Starts(pc)
    ensures SameDoors(d, Section(d, t, pc, choice).d)
  {
  }

  lemma StopLeavesDoors(d: Shared, l: nat, cause: Cause)
    ensures SameDoors(d, StopSection(d, l, cause).d)
  {
  }

  lemma ClearLeavesDoors(d: Shared, t: nat, l: nat)
    ensures SameDoors(d, ClearSection(d, t, l).d)
  {
  }

  lemma EndingLeavesDoors(d: Shared, t: nat, pc: Pc, choice: nat)
    requires !pc.Reserving? && !Acquiring(pc) && !Starts(pc)
    ensures SameDoors(d, Section(d, t, pc, choice).d)
  {
    match pc
    case Stopping(l, cause) => StopLeavesDoors(d, l, cause);
    case Clearing(l, _) => ClearLeavesDoors(d, t, l);
    case _ =>
  }

  lemma SectionLeavesDoors(d: Shared, t: nat, pc: Pc, choice: nat)
    requires !pc.Reserving?
    ensures SameDoors(d, Section(d, t, pc, choice).d)
  {
    if Acquiring(pc) { AcquiringLeavesDoors(d, t, pc, choice); }
    else if Starts(pc) { StartingLeavesDoors(d, t, pc, choice); }
    else { EndingLeavesDoors(d, t, pc, choice); }
  }

  lemma TrackLeavesDoors(d: Shared, video: bool)
    ensures SameDoors(d, TrackSection(d, video))
  {
  }

  lemma DeliverLeavesDoors(d: Shared)
    ensures SameDoors(d, DeliverSection(d))
  {
    var e := DeliverSection(d);
    assert e == d.(c := e.c, inflight := None, leases := d.leases.(promotions := e.leases.promotions));
    PromoteLeavesDoors(d.c);
  }

  lemma PromoteLeavesDoors(c: State)
    ensures Promote(c).leaseID == c.leaseID && Promote(c).entrypoint == c.entrypoint && Promote(c).shared == c.shared
  {
  }

  lemma SpeakLeavesDoors(d: Shared, k: nat, l: nat, onStream: bool)
    ensures SameDoors(d, SpeakSection(d, k, l, onStream))
  {
  }

  lemma StopFrameLeavesDoors(d: Shared)
    ensures SameDoors(d, d.(c := ObserveStop(d.c)))
  {
  }

  lemma ControlLeavesDoors(d: Shared, action: Action)
    requires action.TrackFrame? || action.StopFrame? || action.DeliverEvent? || action.Speaks?
    ensures SameDoors(d, Environment(d, action).d)
  {
    match action
    case TrackFrame(video) => TrackLeavesDoors(d, video);
    case DeliverEvent => DeliverLeavesDoors(d);
    case Speaks(k) =>
      if k in d.users.leaseOf { SpeakLeavesDoors(d, k, d.users.leaseOf[k], OnStream(d.fans, d.users, k)); }
    case StopFrame => StopFrameLeavesDoors(d);
  }

  lemma EnvironmentLeavesDoors(d: Shared, action: Action)
    ensures SameDoors(d, Environment(d, action).d)
  {
    if action.TrackFrame? || action.StopFrame? || action.DeliverEvent? || action.Speaks? {
      ControlLeavesDoors(d, action);
    } else {
      OthersLeaveDoors(d, action);
    }
  }

  lemma OthersLeaveDoors(d: Shared, action: Action)
    requires !action.TrackFrame? && !action.StopFrame? && !action.DeliverEvent? && !action.Speaks?
    ensures SameDoors(d, Environment(d, action).d)
  {
    var e := Environment(d, action).d;
    assert e == d.(m := e.m, inflight := e.inflight, sessions := e.sessions);
  }

  lemma {:induction false} ReachDoors(actions: seq<Action>)
    ensures DoorInv(Reach(actions).d)
  {
    if actions != [] {
      ReachDoors(actions[..|actions| - 1]);
      I.ReachInv(actions[..|actions| - 1]);
      StepKeepsDoors(Reach(actions[..|actions| - 1]), actions[|actions| - 1]);
    }
  }

  lemma StepKeepsDoors(s: Sys, action: Action)
    requires I.KeyInv(s.d) && I.ThreadInv(s) && DoorInv(s.d)
    ensures DoorInv(Step(s, action).d)
  {
    if !action.Run? {
      EnvironmentLeavesDoors(s.d, action);
      SameDoorsKeep(s.d, Environment(s.d, action).d);
    } else if action.thread in s.threads {
      SectionKeepsDoors(s.d, action.thread, s.threads[action.thread], action.choice);
    }
  }

  // ----- Startup, promotion and teardown -----

  /** What each goroutine stands for: a joiner goes on only after a startup that succeeded, a starter has
      no source yet, an answered startup saw the answer, only previews end with the ring, and a released
      source was asked to end its call before it is closed. */
  ghost predicate RulePc(d: Shared, seen: set<nat>, pc: Pc) {
    match pc
    case JoinAdding(l, _) => l in d.starts && d.starts[l] == Done(true)
    case Adding(l, k, _) => l !in d.sessions && l in d.leases.first && d.leases.first[l] == k
    case Creating(l, _) => l !in d.sessions
    case FinishingStart(l, answered) => answered ==> l in seen
    case SettlingStart(l) => Current(d.c, l) ==> !d.c.starting
    case Stopping(l, cause) => cause == RingingEnded ==> l in d.leases.previews
    case Closing(_, x, cause) => cause == ConsumerReleased ==> x in d.sessions && d.sessions[x].asked
    case _ => true
  }

  ghost predicate StartRule(d: Shared) {
    && (forall l <- d.starts | d.starts[l] == Done(true) :: Current(d.c, l) ==> !d.c.starting)
    && (forall k <- d.users.joined | k in d.users.leaseOf && d.users.leaseOf[k] in d.leases.first ::
          k == d.leases.first[d.users.leaseOf[k]]
          || (d.users.leaseOf[k] in d.starts && d.starts[d.users.leaseOf[k]] == Done(true)))
  }

  ghost predicate AnswerRule(d: Shared, seen: set<nat>) {
    (forall l <- d.leases.promotions :: l in seen) && (d.c.promotePending ==> d.c.leaseID in seen)
  }

  ghost predicate EndRule(d: Shared) {
    && (forall l <- d.leases.winner | d.leases.winner[l] == RingingEnded :: l in d.leases.previews)
    && d.leases.startFrames <= d.fans.Keys
    && (d.c.leaseID in d.leases.startFrames ==> d.c.controlLeaseID == d.c.leaseID)
  }

  ghost predicate RuleData(d: Shared, seen: set<nat>) {
    StartRule(d) && AnswerRule(d, seen) && EndRule(d)
  }

  /** What a section of goroutine `t` leaves alone. */
  ghost predicate RuleMoves(d: Shared, e: Shared, t: nat) {
    && (e.c.leaseID == d.c.leaseID || e.c.leaseID == 0 || e.c.leaseID > d.c.nextID)
    && (e.c.leaseID == d.c.leaseID && !d.c.starting ==> !e.c.starting)
    && (forall l <- d.starts | d.starts[l] == Done(true) :: l in e.starts && e.starts[l] == Done(true))
    && (forall l <- d.leases.first :: l in e.leases.first && e.leases.first[l] == d.leases.first[l])
    && (forall x <- d.sessions :: x in e.sessions && (d.sessions[x].asked ==> e.sessions[x].asked))
    && (forall x <- e.sessions | x !in d.sessions :: x in d.leases.owner && d.leases.owner[x] == t)
    && d.leases.previews <= e.leases.previews
  }

  ghost predicate Rules(d: Shared, o: Outcome, t: nat, seen: set<nat>) {
    && RuleMoves(d, o.d, t) && RuleData(o.d, seen)
    && (o.next.Some? ==> RulePc(o.d, seen, o.next.value))
  }

  lemma OtherRulesStay(d: Shared, e: Shared, t: nat, u: nat, pc: Pc, seen: set<nat>, more: set<nat>)
    requires I.KeyInv(d) && I.PcInv(d, u, pc) && RuleMoves(d, e, t) && u != t && RulePc(d, seen, pc) && seen <= more
    ensures RulePc(e, more, pc)
  {
  }

  lemma AskedStays(y: S.Sys, a: S.Action)
    ensures y.asked ==> S.Step(y, a).asked
    ensures S.Step(y, S.EndCallOnCloseCalled).asked
  {
  }

  lemma SameRules(d: Shared, o: Outcome, t: nat, seen: set<nat>)
    requires RuleData(d, seen) && o.d == d && (o.next.Some? ==> RulePc(d, seen, o.next.value))
    ensures Rules(d, o, t, seen)
  {
  }

  lemma JoinRules(d: Shared, t: nat, ep: string, mode: Mode, ringing: bool, answered: bool, o: Outcome, seen: set<nat>)
    requires I.KeyInv(d) && RuleData(d, seen) && Decide(d.c, ep, mode, ringing, answered).Join?
    requires o == ReserveSection(d, t, ep, mode, ringing, answered)
    ensures Rules(d, o, t, seen)
  {
  }

  lemma NewRules(d: Shared, t: nat, ep: string, mode: Mode, ringing: bool, answered: bool, o: Outcome, seen: set<nat>)
    requires I.KeyInv(d) && DoorInv(d) && RuleData(d, seen) && Decide(d.c, ep, mode, ringing, answered).New?
    requires o == ReserveSection(d, t, ep, mode, ringing, answered)
    ensures Rules(d, o, t, seen)
  {
    var l, k := d.c.nextID + 1, d.c.nextConsumer + 1;
    NewChanges(d, t, ep, mode, ringing, answered, o, l, k);
    assert l !in d.fans && l !in d.starts && k !in d.users.leaseOf && l !in d.sessions;
    NewStartRule(d, l, k, o.d);
    NewMoves(d, t, l, k, o.d, seen);
  }

  lemma NewChanges(
      d: Shared, t: nat, ep: string, mode: Mode, ringing: bool, answered: bool, o: Outcome, l: nat, k: nat)
    requires Decide(d.c, ep, mode, ringing, answered).New? && o == ReserveSection(d, t, ep, mode, ringing, answered)
    requires l == d.c.nextID + 1 && k == d.c.nextConsumer + 1
    ensures o.next == Some(Adding(l, k, ringing)) && o.d.c.leaseID == l && o.d.c.controlLeaseID == 0
    ensures !o.d.c.promotePending
    ensures o.d.starts == d.starts[l := Open] && o.d.sessions == d.sessions && o.d.fans.Keys == d.fans.Keys + {l}
    ensures o.d.leases == d.leases.(first := d.leases.first[l := k], owner := d.leases.owner[l := t],
                                    previews := d.leases.previews + If(ringing, l))
    ensures o.d.users.leaseOf == d.users.leaseOf[k := l] && o.d.users.joined == d.users.joined
  {
  }

  lemma NewMoves(d: Shared, t: nat, l: nat, k: nat, e: Shared, seen: set<nat>)
    requires AnswerRule(d, seen) && EndRule(d) && l !in d.fans && l == d.c.nextID + 1
    requires d.leases.first.Keys == d.starts.Keys == d.fans.Keys
    requires e.c.leaseID == l && e.c.controlLeaseID == 0 && !e.c.promotePending && e.starts == d.starts[l := Open]
    requires e.sessions == d.sessions && e.fans.Keys == d.fans.Keys + {l} && d.c.leaseID <= d.c.nextID
    requires e.leases.first == d.leases.first[l := k] && e.leases.winner == d.leases.winner
    requires d.leases.previews <= e.leases.previews
    requires e.leases.promotions == d.leases.promotions && e.leases.startFrames == d.leases.startFrames
    ensures RuleMoves(d, e, t) && AnswerRule(e, seen) && EndRule(e)
  {
  }

  lemma NewStartRule(d: Shared, l: nat, k: nat, e: Shared)
    requires StartRule(d) && d.users.joined <= d.users.leaseOf.Keys && k !in d.users.leaseOf && l !in d.starts
    requires l !in d.leases.first && d.users.joined == e.users.joined
    requires forall x <- d.users.leaseOf :: d.users.leaseOf[x] != l && d.users.leaseOf[x] in d.leases.first
    requires e.users.leaseOf == d.users.leaseOf[k := l] && e.leases.first == d.leases.first[l := k]
    requires e.starts == d.starts[l := Open] && e.c.leaseID == l
    ensures StartRule(e)
  {
    forall m <- e.starts | e.starts[m] == Done(true)
      ensures Current(e.c, m) ==> !e.c.starting
    {
      assert m != l;
    }
  }

  lemma AddRules(d: Shared, t: nat, l: nat, k: nat, next: Option<Pc>, o: Outcome, seen: set<nat>)
    requires I.KeyInv(d) && RuleData(d, seen) && o == AddSection(d, l, k, next)
    requires (next.None? && l in d.starts && d.starts[l] == Done(true) && k in d.users.leaseOf && d.users.leaseOf[k] == l)
          || (next.Some? && next.value.Creating? && next.value.lease !in d.sessions
              && k in d.users.leaseOf && d.users.leaseOf[k] == l && l in d.leases.first && d.leases.first[l] == k)
    ensures Rules(d, o, t, seen)
  {
    if l in d.fans && !d.fans[l].closed { AddedRules(d, t, l, k, o.d, seen); } else { SameRules(d, o, t, seen); }
  }

  lemma AddedRules(d: Shared, t: nat, l: nat, k: nat, e: Shared, seen: set<nat>)
    requires RuleData(d, seen) && l in d.fans
    requires (l in d.starts && d.starts[l] == Done(true) && k in d.users.leaseOf && d.users.leaseOf[k] == l)
          || (k in d.users.leaseOf && d.users.leaseOf[k] == l && l in d.leases.first && d.leases.first[l] == k)
    requires e == d.(fans := WithConsumer(d.fans, l, k), users := d.users.(joined := d.users.joined + {k}))
    ensures RuleMoves(d, e, t) && RuleData(e, seen)
  {
  }

  lemma CreateRules(d: Shared, t: nat, l: nat, preview: bool, choice: nat, o: Outcome, seen: set<nat>)
    requires RuleData(d, seen) && I.Owns(d, t, l) && l !in d.sessions && o == CreateSection(d, l, preview, choice)
    ensures Rules(d, o, t, seen)
  {
    if choice == 0 { SameRules(d, o, t, seen); } else { MadeRules(d, t, l, o.d.sessions[l], o, seen); }
  }

  lemma MadeRules(d: Shared, t: nat, l: nat, y: S.Sys, o: Outcome, seen: set<nat>)
    requires RuleData(d, seen) && I.Owns(d, t, l) && l !in d.sessions && o.d == d.(sessions := d.sessions[l := y])
    requires o.next == Some(Closing(l, l, SourceCreation)) || o.next == Some(Attaching(l))
    ensures Rules(d, o, t, seen)
  {
  }

  lemma SessionRules(d: Shared, t: nat, x: nat, a: S.Action, o: Outcome, seen: set<nat>)
    requires RuleData(d, seen) && o.d == d.(sessions := SessionStep(d.sessions, x, a))
    requires o.next.None? || o.next.value.Clearing?
    ensures Rules(d, o, t, seen)
  {
    if x in d.sessions { AskedStays(d.sessions[x], a); }
  }

  lemma AttachRules(d: Shared, t: nat, l: nat, o: Outcome, seen: set<nat>)
    requires RuleData(d, seen) && Current(d.c, l) && o == AttachSection(d, l)
    ensures Rules(d, o, t, seen)
  {
  }

  lemma FinishStartRules(d: Shared, t: nat, l: nat, answered: bool, o: Outcome, seen: set<nat>)
    requires RuleData(d, seen) && (answered ==> l in seen) && o == FinishStartSection(d, l, answered)
    ensures Rules(d, o, t, seen)
  {
  }

  lemma SettleStartRules(d: Shared, t: nat, l: nat, o: Outcome, seen: set<nat>)
    requires RuleData(d, seen) && (Current(d.c, l) ==> !d.c.starting)
    requires o == Outcome(d.(starts := Settled(d.starts, l, true)), None)
    ensures Rules(d, o, t, seen)
  {
  }

  lemma SettleStopRules(d: Shared, t: nat, l: nat, o: Outcome, seen: set<nat>)
    requires RuleData(d, seen) && o == SettleStopSection(d, l)
    ensures Rules(d, o, t, seen)
  {
  }

  lemma RemoveRules(d: Shared, t: nat, l: nat, k: nat, cause: Cause, o: Outcome, seen: set<nat>)
    requires RuleData(d, seen) && l in d.fans && k in d.fans[l].consumers && o == RemoveSection(d, t, l, k, cause)
    ensures Rules(d, o, t, seen)
  {
  }

  lemma FreeUplinkRules(d: Shared, t: nat, l: nat, k: nat, cause: Cause, last: bool, o: Outcome, seen: set<nat>)
    requires RuleData(d, seen) && cause != RingingEnded && o == FreeUplinkSection(d, l, k, cause, last)
    ensures Rules(d, o, t, seen)
  {
  }

  lemma StopRules(d: Shared, t: nat, l: nat, cause: Cause, o: Outcome, seen: set<nat>)
    requires RuleData(d, seen) && Wins(d.c, l) && (cause == RingingEnded ==> l in d.leases.previews)
    requires o == StopSection(d, l, cause)
    ensures Rules(d, o, t, seen)
  {
  }

  lemma TellRules(d: Shared, t: nat, l: nat, x: nat, cause: Cause, o: Outcome, seen: set<nat>)
    requires RuleData(d, seen) && x in d.sessions && o == TellSection(d, l, x, cause)
    ensures Rules(d, o, t, seen)
  {
    AskedStays(d.sessions[x], S.EndCallOnCloseCalled);
  }

  lemma ClearRules(d: Shared, t: nat, l: nat, o: Outcome, seen: set<nat>)
    requires RuleData(d, seen) && 0 !in d.fans && Current(d.c, l) && o == ClearSection(d, t, l)
    ensures Rules(d, o, t, seen)
  {
  }

  lemma AnswerPromotes(c: State)
    ensures Promote(c).leaseID == c.leaseID && Promote(c).starting == c.starting
    ensures Promote(c).controlLeaseID == c.controlLeaseID
    ensures Promote(c).promotePending ==> c.promotePending || c.leaseID != 0
    ensures Promotable(c) ==> c.leaseID != 0
  {
  }

  lemma DeliverRules(d: Shared, t: nat, e: Shared, seen: set<nat>)
    requires RuleData(d, seen) && e == DeliverSection(d)
    requires d.inflight.Some? && d.inflight.value.CallAnswered? && d.c.leaseID != 0 ==> d.c.leaseID in seen
    requires C.Valid(d.c)
    ensures Rules(d, Outcome(e, None), t, seen)
  {
    AnswerPromotes(d.c);
    I.DeliverLeaves(d, e);
    assert forall l <- e.leases.promotions :: l in d.leases.promotions || (l == d.c.leaseID && l in seen);
    PromotionsSeen(d, e, t, seen);
  }

  lemma PromotionsSeen(d: Shared, e: Shared, t: nat, seen: set<nat>)
    requires RuleData(d, seen) && C.Valid(d.c)
    requires e == d.(c := e.c, inflight := None, leases := d.leases.(promotions := e.leases.promotions))
    requires e.c.leaseID == d.c.leaseID && e.c.starting == d.c.starting && e.c.controlLeaseID == d.c.controlLeaseID
    requires e.c.promotePending ==> e.c.leaseID in seen || e.c.leaseID == 0
    requires e.c.promotePending ==> d.c.promotePending || d.c.leaseID != 0
    requires forall l <- e.leases.promotions :: l in d.leases.promotions || l in seen
    ensures Rules(d, Outcome(e, None), t, seen)
  {
  }

  lemma SpeakRules(d: Shared, t: nat, k: nat, l: nat, onStream: bool, e: Shared, seen: set<nat>)
    requires RuleData(d, seen) && e == SpeakSection(d, k, l, onStream)
    ensures Rules(d, Outcome(e, None), t, seen)
  {
  }

  lemma TrackRules(d: Shared, t: nat, video: bool, e: Shared, seen: set<nat>)
    requires I.KeyInv(d) && RuleData(d, seen) && e == TrackSection(d, video)
    ensures Rules(d, Outcome(e, None), t, seen)
  {
  }

  // ----- Every step keeps the rules -----

  ghost predicate RulePcs(s: Sys, seen: set<nat>) {
    forall t <- s.threads :: RulePc(s.d, seen, s.threads[t])
  }

  ghost predicate RuleInv(s: Sys, seen: set<nat>) {
    RuleData(s.d, seen) && RulePcs(s, seen)
  }

  ghost predicate Stands(d: Shared, t: nat, pc: Pc, seen: set<nat>) {
    I.KeyInv(d) && DoorInv(d) && I.PcInv(d, t, pc) && RuleData(d, seen) && RulePc(d, seen, pc)
  }

  lemma ReserveRules(d: Shared, t: nat, ep: string, mode: Mode, ringing: bool, answered: bool, o: Outcome, seen: set<nat>)
    requires I.KeyInv(d) && DoorInv(d) && RuleData(d, seen) && o == ReserveSection(d, t, ep, mode, ringing, answered)
    ensures Rules(d, o, t, seen)
  {
    match Decide(d.c, ep, mode, ringing, answered)
    case Refused(_) => SameRules(d, o, t, seen);
    case Join(_, _) => JoinRules(d, t, ep, mode, ringing, answered, o, seen);
    case New(_, _, _) => NewRules(d, t, ep, mode, ringing, answered, o, seen);
  }

  lemma JoinAddingRules(d: Shared, t: nat, l: nat, k: nat, choice: nat, o: Outcome, seen: set<nat>)
    requires Stands(d, t, JoinAdding(l, k), seen) && o == Section(d, t, JoinAdding(l, k), choice)
    ensures Rules(d, o, t, seen)
  {
    if d.fans[l].closed { SameRules(d, o, t, seen); } else { AddRules(d, t, l, k, None, o, seen); }
  }

  lemma AddingRules(d: Shared, t: nat, l: nat, k: nat, preview: bool, choice: nat, o: Outcome, seen: set<nat>)
    requires Stands(d, t, Adding(l, k, preview), seen) && o == Section(d, t, Adding(l, k, preview), choice)
    ensures Rules(d, o, t, seen)
  {
    if d.fans[l].closed { SameRules(d, o, t, seen); } else { AddRules(d, t, l, k, Some(Creating(l, preview)), o, seen); }
  }

  lemma AttachingRules(d: Shared, t: nat, l: nat, choice: nat, o: Outcome, seen: set<nat>)
    requires Stands(d, t, Attaching(l), seen) && o == Section(d, t, Attaching(l), choice)
    ensures Rules(d, o, t, seen)
  {
    if Current(d.c, l) { AttachRules(d, t, l, o, seen); } else { SessionRules(d, t, l, S.CloseCalled, o, seen); }
  }

  lemma AcquiringRules(d: Shared, t: nat, pc: Pc, choice: nat, o: Outcome, seen: set<nat>)
    requires Stands(d, t, pc, seen) && o == Section(d, t, pc, choice)
    requires pc.JoinAdding? || pc.Adding? || pc.Creating? || pc.Attaching?
    ensures Rules(d, o, t, seen)
  {
    match pc
    case JoinAdding(l, k) => JoinAddingRules(d, t, l, k, choice, o, seen);
    case Adding(l, k, preview) => AddingRules(d, t, l, k, preview, choice, o, seen);
    case Creating(l, preview) => CreateRules(d, t, l, preview, choice, o, seen);
    case Attaching(l) => AttachingRules(d, t, l, choice, o, seen);
  }

  lemma WaitingRules(d: Shared, t: nat, pc: Pc, choice: nat, o: Outcome, seen: set<nat>)
    requires RuleData(d, seen) && o == Section(d, t, pc, choice)
    requires pc.Probing? || pc.Probed? || pc.JoinWaiting? || pc.Starting? || pc.Leaving?
    ensures Rules(d, o, t, seen)
  {
    SameRules(d, o, t, seen);
  }

  /** The probe at the end of startup sees the answer. */
  lemma ProbeRules(d: Shared, t: nat, l: nat, choice: nat, o: Outcome, seen: set<nat>)
    requires RuleData(d, seen) && o == Section(d, t, StartedOk(l), choice)
    requires M.HasAnsweredInboundCall(d.m) ==> l in seen
    ensures Rules(d, o, t, seen)
  {
    SameRules(d, o, t, seen);
  }

  lemma RemovingRules(d: Shared, t: nat, l: nat, k: nat, cause: Cause, choice: nat, o: Outcome, seen: set<nat>)
    requires RuleData(d, seen) && l in d.fans && o == Section(d, t, Removing(l, k, cause), choice)
    ensures Rules(d, o, t, seen)
  {
    if k in d.fans[l].consumers { RemoveRules(d, t, l, k, cause, o, seen); } else { SameRules(d, o, t, seen); }
  }

  lemma FreeingRules(d: Shared, t: nat, l: nat, k: nat, cause: Cause, last: bool, choice: nat, o: Outcome, seen: set<nat>)
    requires RuleData(d, seen) && cause != RingingEnded
    requires o == Section(d, t, FreeingUplink(l, k, cause, last), choice)
    ensures Rules(d, o, t, seen)
  {
    FreeUplinkRules(d, t, l, k, cause, last, o, seen);
  }

  lemma FinishingRules(d: Shared, t: nat, l: nat, answered: bool, choice: nat, o: Outcome, seen: set<nat>)
    requires RuleData(d, seen) && (answered ==> l in seen) && o == Section(d, t, FinishingStart(l, answered), choice)
    ensures Rules(d, o, t, seen)
  {
    FinishStartRules(d, t, l, answered, o, seen);
  }

  lemma SettlingRules(d: Shared, t: nat, l: nat, choice: nat, o: Outcome, seen: set<nat>)
    requires RuleData(d, seen) && (Current(d.c, l) ==> !d.c.starting) && o == Section(d, t, SettlingStart(l), choice)
    ensures Rules(d, o, t, seen)
  {
    SettleStartRules(d, t, l, o, seen);
  }

  lemma LeavingRules(d: Shared, t: nat, pc: Pc, choice: nat, o: Outcome, seen: set<nat>)
    requires I.PcInv(d, t, pc) && RuleData(d, seen) && RulePc(d, seen, pc) && o == Section(d, t, pc, choice)
    requires pc.FinishingStart? || pc.SettlingStart? || pc.Removing? || pc.FreeingUplink?
    ensures Rules(d, o, t, seen)
  {
    match pc
    case FinishingStart(l, answered) => FinishingRules(d, t, l, answered, choice, o, seen);
    case SettlingStart(l) => SettlingRules(d, t, l, choice, o, seen);
    case Removing(l, k, cause) => RemovingRules(d, t, l, k, cause, choice, o, seen);
    case FreeingUplink(l, k, cause, last) => FreeingRules(d, t, l, k, cause, last, choice, o, seen);
  }

  lemma StoppingRules(d: Shared, t: nat, l: nat, cause: Cause, choice: nat, o: Outcome, seen: set<nat>)
    requires RuleData(d, seen) && (cause == RingingEnded ==> l in d.leases.previews) && o == Section(d, t, Stopping(l, cause), choice)
    ensures Rules(d, o, t, seen)
  {
    if Wins(d.c, l) { StopRules(d, t, l, cause, o, seen); } else { SameRules(d, o, t, seen); }
  }

  lemma TellingRules(d: Shared, t: nat, l: nat, x: nat, cause: Cause, choice: nat, o: Outcome, seen: set<nat>)
    requires RuleData(d, seen) && x in d.sessions && o == Section(d, t, Telling(l, x, cause), choice)
    ensures Rules(d, o, t, seen)
  {
    TellRules(d, t, l, x, cause, o, seen);
  }

  lemma ClosingRules(d: Shared, t: nat, l: nat, x: nat, cause: Cause, choice: nat, o: Outcome, seen: set<nat>)
    requires RuleData(d, seen) && o == Section(d, t, Closing(l, x, cause), choice)
    ensures Rules(d, o, t, seen)
  {
    SessionRules(d, t, x, S.CloseCalled, o, seen);
  }

  lemma ClearingRules(d: Shared, t: nat, l: nat, cause: Cause, choice: nat, o: Outcome, seen: set<nat>)
    requires RuleData(d, seen) && 0 !in d.fans && o == Section(d, t, Clearing(l, cause), choice)
    ensures Rules(d, o, t, seen)
  {
    if Current(d.c, l) { ClearRules(d, t, l, o, seen); } else { SameRules(d, o, t, seen); }
  }

  lemma EndingRules(d: Shared, t: nat, pc: Pc, choice: nat, o: Outcome, seen: set<nat>)
    requires I.PcInv(d, t, pc) && RuleData(d, seen) && RulePc(d, seen, pc) && 0 !in d.fans && o == Section(d, t, pc, choice)
    requires pc.Stopping? || pc.Telling? || pc.Closing? || pc.Clearing? || pc.SettlingStop?
    ensures Rules(d, o, t, seen)
  {
    match pc
    case Stopping(l, cause) => StoppingRules(d, t, l, cause, choice, o, seen);
    case Telling(l, x, cause) => TellingRules(d, t, l, x, cause, choice, o, seen);
    case Closing(l, x, cause) => ClosingRules(d, t, l, x, cause, choice, o, seen);
    case Clearing(l, cause) => ClearingRules(d, t, l, cause, choice, o, seen);
    case SettlingStop(l) => SettleStopRules(d, t, l, o, seen);
  }

  lemma SectionRules(d: Shared, t: nat, pc: Pc, choice: nat, o: Outcome, seen: set<nat>)
    requires Stands(d, t, pc, seen) && o == Section(d, t, pc, choice)
    requires pc.StartedOk? && M.HasAnsweredInboundCall(d.m) ==> pc.lease in seen
    ensures Rules(d, o, t, seen)
  {
    if pc.Reserving? { ReserveRules(d, t, pc.entrypoint, pc.mode, pc.ringing, pc.answered, o, seen); }
    else if pc.StartedOk? { ProbeRules(d, t, pc.lease, choice, o, seen); }
    else if pc.Stopping? || pc.Telling? || pc.Closing? || pc.Clearing? || pc.SettlingStop? {
      EndingRules(d, t, pc, choice, o, seen);
    }
    else if pc.FinishingStart? || pc.SettlingStart? || pc.Removing? || pc.FreeingUplink? {
      LeavingRules(d, t, pc, choice, o, seen);
    }
    else if pc.JoinAdding? || pc.Adding? || pc.Creating? || pc.Attaching? { AcquiringRules(d, t, pc, choice, o, seen); }
    else { WaitingRules(d, t, pc, choice, o, seen); }
  }

  lemma SpawnRules(d: Shared, t: nat, action: Action, o: Outcome, seen: set<nat>)
    requires I.PreviewInv(d.c.leaseID, d.c.previewRinging, d.leases, d.users) && RuleData(d, seen)
    requires o == Environment(d, action) && I.Spawns(d, action)
    ensures Rules(d, o, t, seen)
  {
    SameRules(d, o, t, seen);
  }

  lemma QuietRules(d: Shared, e: Shared, t: nat, seen: set<nat>)
    requires RuleData(d, seen) && e == d.(c := e.c, m := e.m, inflight := e.inflight)
    requires e.c == d.c || e.c == ObserveStop(d.c)
    ensures Rules(d, Outcome(e, None), t, seen)
  {
  }

  lemma EnvironmentRules(d: Shared, t: nat, action: Action, o: Outcome, seen: set<nat>)
    requires I.KeyInv(d) && I.PreviewInv(d.c.leaseID, d.c.previewRinging, d.leases, d.users) && RuleData(d, seen)
    requires o == Environment(d, action)
    requires action.DeliverEvent? && d.inflight.Some? && d.inflight.value.CallAnswered? && d.c.leaseID != 0 ==>
               d.c.leaseID in seen
    ensures Rules(d, o, t, seen)
  {
    if I.Spawns(d, action) { SpawnRules(d, t, action, o, seen); }
    else if action.DeliverEvent? { DeliverRules(d, t, o.d, seen); }
    else if action.TrackFrame? { TrackRules(d, t, action.video, o.d, seen); }
    else if o.d == d { SameRules(d, o, t, seen); }
    else if action.Speaks? {
      var k := action.consumer;
      SpeakRules(d, t, k, d.users.leaseOf[k], OnStream(d.fans, d.users, k), o.d, seen);
    }
    else if action.Session? { SessionRules(d, t, action.source, action.action, o, seen); }
    else { QuietRules(d, o.d, t, seen); }
  }

  lemma GoesKeepsRules(s: Sys, t: nat, o: Outcome, seen: set<nat>, more: set<nat>)
    requires I.KeyInv(s.d) && I.ThreadInv(s) && RulePcs(s, seen) && seen <= more && Rules(s.d, o, t, more)
    ensures RuleInv(Goes(s, t, o), more)
  {
    var n := Goes(s, t, o);
    forall u <- n.threads
      ensures RulePc(n.d, more, n.threads[u])
    {
      if u != t { OtherRulesStay(s.d, o.d, t, u, s.threads[u], seen, more); }
    }
  }

  lemma MoreIsSeen(d: Shared, pc: Pc, seen: set<nat>, more: set<nat>)
    requires seen <= more
    ensures RuleData(d, seen) ==> RuleData(d, more)
    ensures RulePc(d, seen, pc) ==> RulePc(d, more, pc)
  {
  }

  lemma StepKeepsRules(s: Sys, action: Action, seen: set<nat>, more: set<nat>)
    requires I.Inv(s) && DoorInv(s.d) && RuleInv(s, seen) && more == seen + Sees(s, action)
    ensures RuleInv(Step(s, action), more)
  {
    MoreIsSeen(s.d, Probing("", Mode(false, false)), seen, more);
    if !action.Run? {
      EnvironmentRules(s.d, s.nextThread, action, Environment(s.d, action), more);
      GoesKeepsRules(s, s.nextThread, Environment(s.d, action), seen, more);
    } else if action.thread in s.threads {
      var t, pc := action.thread, s.threads[action.thread];
      MoreIsSeen(s.d, pc, seen, more);
      SectionRules(s.d, t, pc, action.choice, Section(s.d, t, pc, action.choice), more);
      GoesKeepsRules(s, t, Section(s.d, t, pc, action.choice), seen, more);
    } else {
      assert RulePcs(s, more) by {
        forall u <- s.threads
          ensures RulePc(s.d, more, s.threads[u])
        {
          MoreIsSeen(s.d, s.threads[u], seen, more);
        }
      }
    }
  }

  lemma {:induction false} ReachRules(actions: seq<Action>)
    ensures RuleInv(Reach(actions), Seen(actions))
  {
    if actions != [] {
      var before, last := actions[..|actions| - 1], actions[|actions| - 1];
      ReachRules(before);
      ReachDoors(before);
      I.ReachInv(before);
      StepKeepsRules(Reach(before), last, Seen(before), Seen(actions));
    }
  }

  // ----- What holds in every run -----

  /** Nobody is shown the wrong door, early, or in a mode it did not ask for: every consumer of a stream
      asked for the entrypoint of that stream, one whose mode does not allow ringing only with no ring
      seen, and two share a stream only if both are of the sharing kind. */
  lemma {:induction false} DoorsMatch(actions: seq<Action>)
    ensures
      var d := Reach(actions).d;
      forall k <- d.users.joined ::
        && k in d.users.asked && k in d.users.leaseOf && d.users.leaseOf[k] in d.leases.first
        && var first := d.leases.first[d.users.leaseOf[k]];
           && first in d.users.asked && d.users.asked[k].entrypoint == d.users.asked[first].entrypoint
           && (Current(d.c, d.users.leaseOf[k]) ==> d.c.entrypoint == d.users.asked[k].entrypoint)
           && (d.users.asked[k].ringing ==> d.users.asked[k].mode.allowRinging)
           && (k != first ==> d.users.asked[k].mode.shareable && d.users.asked[first].mode.shareable)
  {
    ReachDoors(actions);
    I.ReachInv(actions);
    var d := Reach(actions).d;
    forall k <- d.users.joined
      ensures k in d.users.leaseOf && d.users.leaseOf[k] in d.leases.first && Fits(d, k, d.users.leaseOf[k])
    {
    }
  }

  predicate RefusedNow(d: Shared, pc: Pc)
    requires pc.Reserving?
  {
    || (pc.ringing && !pc.mode.allowRinging)
    || (d.c.leaseID == 0 && d.c.owner == External && !pc.answered && !pc.ringing)
  }

  ghost predicate SharesNow(d: Shared, pc: Pc)
    requires pc.Reserving?
  {
    && d.c.leaseID in d.leases.first && d.leases.first[d.c.leaseID] in d.users.asked && !d.c.stopping
    && var born := d.users.asked[d.leases.first[d.c.leaseID]];
       pc.mode.shareable && born.mode.shareable && born.entrypoint == pc.entrypoint
  }

  /** What a reservation comes to: with a ring seen only a mode that allows it goes on; a stream the
      companion does not own is taken only for an answered or a ringing call; an idle coordinator starts
      a new one, as a preview exactly if it rings; the running stream is joined by a sharing acquire of
      its own entrypoint, if it is of the sharing kind and nobody tears it down; anything else is busy. */
  ghost predicate Reserved(d: Shared, pc: Pc, n: Sys, t: nat)
    requires pc.Reserving?
  {
    if RefusedNow(d, pc) then t !in n.threads && n.d == d
    else if d.c.leaseID == 0 then
      && t in n.threads && n.threads[t] == Adding(d.c.nextID + 1, d.c.nextConsumer + 1, pc.ringing)
      && n.d.c.leaseID == d.c.nextID + 1 && n.d.c.starting && n.d.c.previewRinging == pc.ringing
      && n.d.c.owner == Companion && n.d.c.entrypoint == pc.entrypoint && n.d.c.shared == pc.mode.shareable
    else if SharesNow(d, pc) then
      && t in n.threads && n.threads[t] == JoinWaiting(d.c.leaseID, d.c.nextConsumer + 1)
      && n.d.c == d.c.(nextConsumer := d.c.nextConsumer + 1)
    else t !in n.threads && n.d == d
  }

  /** Reservations come to exactly that, in every run. */
  lemma {:induction false} ReserveOutcome(actions: seq<Action>, t: nat, choice: nat)
    requires t in Reach(actions).threads && Reach(actions).threads[t].Reserving?
    ensures Reserved(Reach(actions).d, Reach(actions).threads[t], Step(Reach(actions), Run(t, choice)), t)
  {
    ReachDoors(actions);
    I.ReachInv(actions);
    var s := Reach(actions);
    ReserveDecides(s.d, t, s.threads[t], Step(s, Run(t, choice)), s, choice);
  }

  lemma ReserveDecides(d: Shared, t: nat, pc: Pc, n: Sys, s: Sys, choice: nat)
    requires s.d == d && t in s.threads && s.threads[t] == pc && pc.Reserving? && n == Goes(s, t, Section(d, t, pc, choice))
    requires DoorInv(d) && C.Valid(d.c)
    ensures Reserved(d, pc, n, t)
  {
    var o := ReserveSection(d, t, pc.entrypoint, pc.mode, pc.ringing, pc.answered);
    assert n == Goes(s, t, o);
    if RefusedNow(d, pc) { Refuses(d, t, pc, o); }
    else if d.c.leaseID == 0 { StartsAfresh(d, t, pc, o); }
    else if SharesNow(d, pc) { Shares(d, t, pc, o); }
    else { TurnsAway(d, t, pc, o); }
  }

  lemma Refuses(d: Shared, t: nat, pc: Pc, o: Outcome)
    requires pc.Reserving? && RefusedNow(d, pc) && C.Valid(d.c)
    requires o == ReserveSection(d, t, pc.entrypoint, pc.mode, pc.ringing, pc.answered)
    ensures o == Outcome(d, None)
  {
  }

  lemma StartsAfresh(d: Shared, t: nat, pc: Pc, o: Outcome)
    requires pc.Reserving? && !RefusedNow(d, pc) && d.c.leaseID == 0
    requires o == ReserveSection(d, t, pc.entrypoint, pc.mode, pc.ringing, pc.answered)
    ensures o.next == Some(Adding(d.c.nextID + 1, d.c.nextConsumer + 1, pc.ringing))
    ensures
      && o.d.c.leaseID == d.c.nextID + 1 && o.d.c.starting && o.d.c.previewRinging == pc.ringing
      && o.d.c.owner == Companion && o.d.c.entrypoint == pc.entrypoint && o.d.c.shared == pc.mode.shareable
  {
  }

  lemma Shares(d: Shared, t: nat, pc: Pc, o: Outcome)
    requires pc.Reserving? && !RefusedNow(d, pc) && d.c.leaseID != 0 && SharesNow(d, pc) && DoorInv(d) && C.Valid(d.c)
    requires o == ReserveSection(d, t, pc.entrypoint, pc.mode, pc.ringing, pc.answered)
    ensures o.next == Some(JoinWaiting(d.c.leaseID, d.c.nextConsumer + 1))
    ensures o.d.c == d.c.(nextConsumer := d.c.nextConsumer + 1)
  {
    assert Joinable(d.c, pc.entrypoint, pc.mode);
  }

  lemma TurnsAway(d: Shared, t: nat, pc: Pc, o: Outcome)
    requires pc.Reserving? && d.c.leaseID != 0 && !SharesNow(d, pc) && DoorInv(d)
    requires o == ReserveSection(d, t, pc.entrypoint, pc.mode, pc.ringing, pc.answered)
    ensures o == Outcome(d, None)
  {
    assert !Joinable(d.c, pc.entrypoint, pc.mode);
  }

  /** A lease is promoted only for an answer: its CallAnswered was delivered while the lease was current,
      or the probe at the end of its startup found the call answered.  A preview is a lease whose acquire
      saw the ring. */
  lemma {:induction false} PromotedOnlyForAnswer(actions: seq<Action>)
    ensures
      var d := Reach(actions).d;
      && (forall l <- d.leases.promotions :: l in Seen(actions))
      && (forall l <- d.fans :: l in d.leases.first && d.leases.first[l] in d.users.asked
                                && (l in d.leases.previews <==> d.users.asked[d.leases.first[l]].ringing))
  {
    ReachRules(actions);
    ReachDoors(actions);
  }

  /** Whoever joins a running stream joins after a startup that succeeded; a startup counts as succeeded
      only once it is over. */
  lemma {:induction false} JoinedAfterStartup(actions: seq<Action>)
    ensures
      var d := Reach(actions).d;
      && (forall k <- d.users.joined ::
            && k in d.users.leaseOf && d.users.leaseOf[k] in d.leases.first && d.users.leaseOf[k] in d.starts
            && (k == d.leases.first[d.users.leaseOf[k]] || d.starts[d.users.leaseOf[k]] == Done(true)))
      && (forall l <- d.starts | d.starts[l] == Done(true) :: Current(d.c, l) ==> !d.c.starting)
  {
    ReachRules(actions);
    ReachDoors(actions);
    I.ReachInv(actions);
  }

  /** A goroutine more, about to stop lease `l`, or none. */
  ghost predicate Starts1(s: Sys, n: Sys, stop: Option<Pc>) {
    n.d == s.d && n.threads == (if stop.Some? then s.threads[s.nextThread := stop.value] else s.threads)
  }

  ghost predicate Unpromoted(d: Shared) {
    d.c.leaseID in d.leases.previews && d.c.leaseID !in d.leases.promotions
  }

  /** The end of a ring tears the current lease down exactly if that is a preview not promoted, and wins
      over previews only; the end of the call by the user tears any lease down; a stop frame exactly one
      past startup that saw a start frame during it. */
  lemma {:induction false} WhatTearsDown(actions: seq<Action>)
    ensures
      var s := Reach(actions);
      var d := s.d;
      && (forall l <- d.leases.winner | d.leases.winner[l] == RingingEnded :: l in d.leases.previews)
      && Starts1(s, Step(s, RingEnds),
                 if d.c.leaseID != 0 && Unpromoted(d) then Some(Stopping(d.c.leaseID, RingingEnded)) else None)
      && Starts1(s, Step(s, CallEnds),
                 if d.c.leaseID == 0 then None
                 else Some(Stopping(d.c.leaseID, if Unpromoted(d) then RingingEnded else CallEnded)))
      && (d.c.leaseID != 0 ==>
            Starts1(s, Step(s, StopFrame),
                    if !d.c.starting && d.c.leaseID in d.leases.startFrames
                    then Some(Stopping(d.c.leaseID, ControlStop)) else None))
  {
    ReachRules(actions);
    I.ReachInv(actions);
    var s := Reach(actions);
    assert s.nextThread !in s.threads;
    TearsDownHere(s, Seen(actions));
  }

  lemma TearsDownHere(s: Sys, seen: set<nat>)
    requires I.KeyInv(s.d) && EndRule(s.d) && I.WinInv(s.d.c, s.d.leases) && s.nextThread !in s.threads
    requires I.PreviewInv(s.d.c.leaseID, s.d.c.previewRinging, s.d.leases, s.d.users)
    ensures
      var d := s.d;
      && Starts1(s, Step(s, RingEnds),
                 if d.c.leaseID != 0 && Unpromoted(d) then Some(Stopping(d.c.leaseID, RingingEnded)) else None)
      && Starts1(s, Step(s, CallEnds),
                 if d.c.leaseID == 0 then None
                 else Some(Stopping(d.c.leaseID, if Unpromoted(d) then RingingEnded else CallEnded)))
      && (d.c.leaseID != 0 ==>
            Starts1(s, Step(s, StopFrame),
                    if !d.c.starting && d.c.leaseID in d.leases.startFrames
                    then Some(Stopping(d.c.leaseID, ControlStop)) else None))
  {
    assert s.threads - {s.nextThread} == s.threads;
    assert s.d.c.previewRinging <==> s.d.c.leaseID != 0 && Unpromoted(s.d);
  }

  /** A start frame during startup counts for its lease and requests its track; later ones change
      nothing; without a lease it shows the stream as external, until a stop frame. */
  lemma ControlFrames(c: State, video: bool)
    requires C.Valid(c)
    ensures
      var n := ObserveTrack(c, video);
      if c.leaseID != 0 && !c.starting then n == c
      else
        n == c.(controlLeaseID := c.leaseID, owner := if c.leaseID != 0 then Companion else External,
                videoRequested := c.videoRequested || video, audioRequested := c.audioRequested || !video)
    ensures c.leaseID == 0 ==> ObserveStop(c).owner == Idle
    ensures c.leaseID != 0 ==> ObserveStop(c) == c
  {
  }

  /** Who is let through: the talker, or the first on the stream to speak while nobody talks, on a lease
      past startup that is no preview any more, has its source and is not being torn down. */
  lemma {:induction false} AdmittedExactly(actions: seq<Action>, k: nat)
    requires k in Reach(actions).d.users.leaseOf
    ensures
      var d, e := Reach(actions).d, Step(Reach(actions), Speaks(k)).d;
      if LetThrough(d, k) then k in e.users.admitted && e.c.talker == k
      else e.users.admitted == d.users.admitted && e.c.talker == d.c.talker
  {
    I.ReachInv(actions);
    AdmittedHere(Reach(actions).d, k, Step(Reach(actions), Speaks(k)).d);
  }

  ghost predicate LetThrough(d: Shared, k: nat)
    requires k in d.users.leaseOf
  {
    && Current(d.c, d.users.leaseOf[k]) && !d.c.starting && !d.c.stopping && !Unpromoted(d) && d.c.source.Some?
    && (d.c.talker == k || (d.c.talker == 0 && OnStream(d.fans, d.users, k)))
  }

  lemma AdmittedHere(d: Shared, k: nat, e: Shared)
    requires I.KeyInv(d) && I.PreviewInv(d.c.leaseID, d.c.previewRinging, d.leases, d.users) && k in d.users.leaseOf
    requires e == SpeakSection(d, k, d.users.leaseOf[k], OnStream(d.fans, d.users, k))
    ensures if LetThrough(d, k) then k in e.users.admitted && e.c.talker == k
            else e.users.admitted == d.users.admitted && e.c.talker == d.c.talker
  {
    assert k != 0;
    SpeaksExactly(d, k, d.users.leaseOf[k], OnStream(d.fans, d.users, k));
    assert d.c.previewRinging <==> d.c.leaseID != 0 && Unpromoted(d);
  }

  lemma SpeaksExactly(d: Shared, k: nat, l: nat, onStream: bool)
    requires k != 0
    ensures
      var e := SpeakSection(d, k, l, onStream);
      var lets := Current(d.c, l) && !d.c.starting && !d.c.stopping && !d.c.previewRinging && d.c.source.Some?
                  && (d.c.talker == k || (d.c.talker == 0 && onStream));
      && (lets ==> k in e.users.admitted && e.c.talker == k)
      && (!lets ==> e.users.admitted == d.users.admitted
                    && e.c.talker == d.c.talker)
  {
  }

  /** A teardown that a consumer's Release won asks its source to end the call before it closes it. */
  lemma {:induction false} ReleaseAsksSource(actions: seq<Action>, t: nat)
    requires t in Reach(actions).threads
    ensures
      var s := Reach(actions);
      match s.threads[t]
      case Closing(_, x, cause) => cause == ConsumerReleased ==> x in s.d.sessions && s.d.sessions[x].asked
      case Stopping(l, cause) =>
        cause == ConsumerReleased && s.d.c.leaseID == l != 0 && !s.d.c.stopping && s.d.c.source.Some? ==>
          Section(s.d, t, s.threads[t], 0).next == Some(Telling(l, s.d.c.source.value, ConsumerReleased))
      case _ => true
  {
    ReachRules(actions);
    assert RulePc(Reach(actions).d, Seen(actions), Reach(actions).threads[t]);
  }

  /** A won stop takes the source away from everybody else, a cleared lease leaves the coordinator idle,
      and a source is attached to its own lease. */
  lemma LeaseEnds(c: State, l: nat)
    requires Current(c, l)
    ensures !c.stopping ==> Stop(c, l) == c.(stopping := true, source := None)
    ensures
      FinishStop(c, l) == C.INITIAL.(nextID := c.nextID, nextConsumer := c.nextConsumer, source := c.source)
    ensures Attach(c, l) == c.(source := Some(l))
  {
  }

  lemma OthersLeaveLease(c: State, l: nat)
    requires !Current(c, l)
    ensures Stop(c, l) == FinishStop(c, l) == Attach(c, l) == c && forall answered :: FinishStart(c, l, answered) == c
  {
  }

  /** The end of startup: a preview is promoted, its audio requested, exactly if it was answered and is not
      being torn down; the promotion on the event waits for the end of startup. */
  lemma StartupEnds(c: State, l: nat, answered: bool)
    requires Current(c, l)
    ensures
      FinishStart(c, l, answered) ==
      if c.previewRinging && (c.promotePending || answered) && !c.stopping
      then c.(starting := false, previewRinging := false, promotePending := false, audioRequested := true)
      else c.(starting := false)
    ensures
      Promote(c) ==
      if !c.previewRinging || c.stopping then c
      else if c.starting then c.(promotePending := true)
      else c.(previewRinging := false, promotePending := false, audioRequested := true)
  {
  }

  // ----- Letting go -----

  /** A consumer that lets go leaves its stream while the lease is current; once its lease is over there is
      nothing to leave. */
  lemma LetsGo(s: Sys, k: nat, release: bool, choice: nat)
    requires k in s.d.users.leaseOf && s.nextThread !in s.threads
    ensures
      var l, t, n := s.d.users.leaseOf[k], s.nextThread, Step(s, LetGo(k, release));
      var m := Step(n, Run(t, choice));
      && m.d == n.d == s.d
      && (if Current(s.d.c, l)
          then t in m.threads && m.threads[t] == Removing(l, k, if release then ConsumerReleased else ConsumerLeft)
          else m.threads == s.threads)
  {
    assert s.threads - {s.nextThread} == s.threads;
  }

  /** It comes off the stream once.  The last one out closes the stream and tears its lease down, for the
      cause it let go for; anybody else leaves both alone. */
  lemma LastOutTearsDown(s: Sys, t: nat, l: nat, k: nat, cause: Cause, choice: nat)
    requires t in s.threads && t < s.nextThread && s.threads[t] == Removing(l, k, cause) && l in s.d.fans
    ensures
      var n := Step(s, Run(t, choice));
      var m := Step(n, Run(t, choice));
      if k !in s.d.fans[l].consumers then t !in n.threads && n.d == s.d
      else
        && l in n.d.fans && n.d.fans[l].consumers == s.d.fans[l].consumers - {k}
        && (n.d.fans[l].closed <==> s.d.fans[l].closed || s.d.fans[l].consumers == {k})
        && m.d.fans == n.d.fans
        && (if s.d.fans[l].consumers == {k} then t in m.threads && m.threads[t] == Stopping(l, cause)
            else t !in m.threads)
  {
    if k in s.d.fans[l].consumers {
      var n := Step(s, Run(t, choice));
      assert n == Goes(s, t, RemoveSection(s.d, t, l, k, cause));
      ComesOff(s.d, t, l, k, cause, RemoveSection(s.d, t, l, k, cause));
      assert n.threads[t] == FreeingUplink(l, k, cause, s.d.fans[l].consumers == {k});
      GivesUplinkUp(n, t, l, k, cause, s.d.fans[l].consumers == {k}, choice);
    }
  }

  lemma GivesUplinkUp(n: Sys, t: nat, l: nat, k: nat, cause: Cause, last: bool, choice: nat)
    requires t in n.threads && n.threads[t] == FreeingUplink(l, k, cause, last)
    ensures
      var m := Step(n, Run(t, choice));
      && m.d.fans == n.d.fans
      && (if last then t in m.threads && m.threads[t] == Stopping(l, cause) else t !in m.threads)
  {
  }

  lemma ComesOff(d: Shared, t: nat, l: nat, k: nat, cause: Cause, o: Outcome)
    requires l in d.fans && k in d.fans[l].consumers && o == RemoveSection(d, t, l, k, cause)
    ensures o.next == Some(FreeingUplink(l, k, cause, d.fans[l].consumers == {k}))
    ensures l in o.d.fans && o.d.fans[l].consumers == d.fans[l].consumers - {k}
    ensures o.d.fans[l].closed <==> d.fans[l].closed || d.fans[l].consumers == {k}
  {
    assert d.fans[l].consumers - {k} == {} <==> d.fans[l].consumers == {k};
  }
}
