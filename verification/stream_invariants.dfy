/** The invariants of the stream protocol, and why every section keeps them.

    Each section is shown to keep the invariants of the shared state and to leave alone what the
    other goroutines rely on (`Moves`); the goroutines are put together once (`PcsStay`). */
module StreamInvariants {
  import opened Prelude
  import E = CoreState
  import M = SignalingManager
  import S = SourceSession
  import opened C = StreamCoordinator
  import opened StreamProtocol

  // ----- Invariants of the shared state -----

  /** Everything goes by a lease or a consumer already issued. */
  ghost predicate NameInv(c: State, leases: set<nat>, h: Consumers) {
    && (forall l :: l in leases <==> 1 <= l <= c.nextID)
    && h.leaseOf.Keys == h.acquirer.Keys && h.joined <= h.leaseOf.Keys && h.admitted <= h.joined
    && (forall k <- h.leaseOf :: 1 <= k <= c.nextConsumer && h.leaseOf[k] in leases)
  }

  ghost predicate KeyInv(d: Shared) {
    && C.Valid(d.c) && M.Valid(d.m) && NameInv(d.c, d.fans.Keys, d.users)
    && d.starts.Keys == d.fans.Keys && d.leases.owner.Keys == d.fans.Keys && d.sessions.Keys <= d.fans.Keys
    && d.leases.previews <= d.fans.Keys && d.late <= d.fans.Keys
  }

  function Live(c: State): nat {
    if c.stopping then 0 else c.leaseID
  }

  /** An open fan-out is that of the current lease, which nobody is tearing down; one that lost its
      last consumer is closed; a consumer on its way out is off its fan-out. */
  ghost predicate FanInv(live: nat, fans: map<nat, Fan>, h: Consumers) {
    && (forall l <- fans | !fans[l].closed :: l == live != 0)
    && (forall l <- fans :: forall k <- fans[l].consumers :: k in h.joined && k in h.leaseOf && h.leaseOf[k] == l)
    && (forall k <- h.joined | k in h.leaseOf && h.leaseOf[k] in fans ::
          fans[h.leaseOf[k]].consumers == {} ==> fans[h.leaseOf[k]].closed)
    && (forall k <- h.freeing :: k in h.joined && !OnStream(fans, h, k))
  }

  /** A startup still open belongs to the current lease or to a goroutine about to finish it. */
  ghost predicate StartInv(leaseID: nat, starts: map<nat, Startup>, settling: map<nat, nat>) {
    forall l <- starts | starts[l].Open? :: l == leaseID != 0 || l in settling
  }

  /** The talker is on the stream or about to give the uplink up, and whoever spoke before it is off
      the stream. */
  ghost predicate TalkInv(leaseID: nat, talker: nat, fans: map<nat, Fan>, h: Consumers) {
    && (talker != 0 ==>
          && talker in h.joined && talker in h.leaseOf && h.leaseOf[talker] == leaseID
          && (OnStream(fans, h, talker) || talker in h.freeing))
    && (forall k <- h.admitted | k in h.leaseOf && h.leaseOf[k] == leaseID :: k == talker || !OnStream(fans, h, k))
  }

  ghost predicate Undelivered(m: M.State, inflight: Option<E.Event>) {
    inflight == Some(E.CallAnswered(m.activeID)) || E.CallAnswered(m.activeID) in m.pending
  }

  /** A preview of an answered call is promoted at the end of startup, or by a coming event. */
  ghost predicate WillPromote(c: State, m: M.State, inflight: Option<E.Event>, l: nat) {
    M.HasAnsweredInboundCall(m) && Current(c, l) && !c.stopping && c.previewRinging ==>
      c.promotePending || Undelivered(m, inflight)
  }

  ghost predicate NotStuck(c: State, m: M.State, inflight: Option<E.Event>) {
    M.HasAnsweredInboundCall(m) && c.previewRinging && !c.starting && !c.stopping ==> Undelivered(m, inflight)
  }

  ghost predicate PreviewInv(leaseID: nat, previewRinging: bool, h: Leases, users: Consumers) {
    && (previewRinging ==> leaseID in h.previews)
    && (forall l <- h.promotions :: h.promotions[l] == 1 && l in h.previews && (l == leaseID ==> !previewRinging))
    && (leaseID in h.previews && !previewRinging ==> leaseID in h.promotions)
    && (forall k <- users.admitted | k in users.leaseOf && users.leaseOf[k] in h.previews ::
          users.leaseOf[k] in h.promotions)
  }

  ghost predicate WinInv(c: State, h: Leases) {
    && (forall l <- h.wins ::
          && h.wins[l] == 1 && 1 <= l <= c.nextID && (l == c.leaseID ==> c.stopping) && l in h.winner
          && (h.winner[l].ControlStop? ==> l in h.startFrames)
          && (EndsCall(h.winner[l]) ==> l in h.released))
    && (c.stopping ==> c.leaseID in h.wins)
    && (c.controlLeaseID != 0 ==> c.controlLeaseID in h.startFrames)
  }

  /** The source the coordinator holds is that of the current lease, unless it was attached late. */
  ghost predicate SourceInv(c: State, sessions: set<nat>, late: set<nat>) {
    && (c.source.Some? ==>
          c.source.value in sessions && (c.source.value in late || (c.source.value == c.leaseID && !c.stopping)))
    && (c.leaseID in late ==> c.stopping)
  }

  predicate OwnOrLate(late: set<nat>, lease: nat, source: nat) {
    source == lease || source in late
  }

  ghost predicate SessionInv(x: nat, y: S.Sys, released: set<nat>, late: set<nat>, askedBy: map<nat, nat>) {
    && S.Inv(y)
    && (y.asked ==> x in askedBy && askedBy[x] in released && OwnOrLate(late, askedBy[x], x))
  }

  ghost predicate AskedInv(sessions: map<nat, S.Sys>, released: set<nat>, late: set<nat>, askedBy: map<nat, nat>) {
    forall x <- sessions :: SessionInv(x, sessions[x], released, late, askedBy)
  }

  ghost predicate StreamInv(d: Shared) {
    && FanInv(Live(d.c), d.fans, d.users)
    && StartInv(d.c.leaseID, d.starts, d.leases.settling)
    && TalkInv(d.c.leaseID, d.c.talker, d.fans, d.users)
    && WinInv(d.c, d.leases)
  }

  ghost predicate CallInv(d: Shared) {
    && NotStuck(d.c, d.m, d.inflight)
    && PreviewInv(d.c.leaseID, d.c.previewRinging, d.leases, d.users)
    && SourceInv(d.c, d.sessions.Keys, d.late)
    && AskedInv(d.sessions, d.leases.released, d.late, d.askedBy)
  }

  // ----- Where each goroutine stands -----

  ghost predicate Pending(d: Shared, t: nat, l: nat, k: nat) {
    && l in d.fans && k in d.users.leaseOf && d.users.leaseOf[k] == l && k !in d.users.joined
    && k in d.users.acquirer && d.users.acquirer[k] == t
  }

  ghost predicate Owns(d: Shared, t: nat, l: nat) {
    l in d.fans && l in d.leases.owner && d.leases.owner[l] == t
  }

  ghost predicate Unattached(d: Shared, t: nat, l: nat) {
    Owns(d, t, l) && d.c.source != Some(l)
  }

  ghost predicate Leaver(d: Shared, l: nat, k: nat, cause: Cause) {
    && k in d.users.leaseOf && d.users.leaseOf[k] == l && l in d.fans
    && (cause.ConsumerReleased? || cause.ConsumerLeft?)
  }

  ghost predicate MayStop(d: Shared, l: nat, cause: Cause) {
    && l in d.fans && !cause.SourceCreation?
    && (EndsCall(cause) ==> l in d.leases.released) && (cause.ControlStop? ==> l in d.leases.startFrames)
  }

  /** A teardown was won, or comes from the goroutine whose source was never attached. */
  ghost predicate TearsDown(d: Shared, t: nat, l: nat, cause: Cause) {
    && l in d.fans
    && (if cause.SourceCreation? then Unattached(d, t, l) else Current(d.c, l) ==> d.c.stopping)
  }

  ghost predicate PcInv(d: Shared, t: nat, pc: Pc) {
    match pc
    case Probing(_, _) => true
    case Probed(_, _, _) => true
    case Reserving(_, _, _, _) => true
    case JoinWaiting(l, k) => Pending(d, t, l, k)
    case JoinAdding(l, k) => Pending(d, t, l, k)
    case Adding(l, k, _) => Pending(d, t, l, k) && Unattached(d, t, l)
    case Creating(l, _) => Unattached(d, t, l)
    case Attaching(l) => Unattached(d, t, l) && l in d.sessions
    case Starting(l) => Owns(d, t, l)
    case StartedOk(l) => Owns(d, t, l)
    case FinishingStart(l, answered) => Owns(d, t, l) && (!answered ==> WillPromote(d.c, d.m, d.inflight, l))
    case SettlingStart(l) => l in d.fans
    case Leaving(l, k, cause) => Leaver(d, l, k, cause)
    case Removing(l, k, cause) => Leaver(d, l, k, cause)
    case FreeingUplink(l, k, cause, last) =>
      && Leaver(d, l, k, cause) && k in d.users.freeing && d.users.freeing[k] == t
      && (last && EndsCall(cause) ==> l in d.leases.released)
    case Stopping(l, cause) => MayStop(d, l, cause)
    case Telling(l, x, cause) =>
      && TearsDown(d, t, l, cause) && EndsCall(cause) && x in d.sessions
      && l in d.leases.released && OwnOrLate(d.late, l, x)
    case Closing(l, x, cause) => TearsDown(d, t, l, cause) && x in d.sessions
    case Clearing(l, cause) => TearsDown(d, t, l, cause)
    case SettlingStop(l) => l in d.fans
  }

  ghost predicate Holds(threads: map<nat, Pc>, t: nat, pc: Pc) {
    t in threads && threads[t] == pc
  }

  ghost predicate IsFreeing(threads: map<nat, Pc>, t: nat, k: nat) {
    t in threads && threads[t].FreeingUplink? && threads[t].consumer == k
  }

  ghost predicate PcsInv(d: Shared, threads: map<nat, Pc>, nextThread: nat) {
    forall t <- threads :: t < nextThread && PcInv(d, t, threads[t])
  }

  /** The goroutines the history names are where it says. */
  ghost predicate NamedInv(threads: map<nat, Pc>, settling: map<nat, nat>, freeing: map<nat, nat>) {
    && (forall l <- settling :: Holds(threads, settling[l], SettlingStop(l)))
    && (forall k <- freeing :: IsFreeing(threads, freeing[k], k))
  }

  ghost predicate ThreadInv(s: Sys) {
    && PcsInv(s.d, s.threads, s.nextThread)
    && NamedInv(s.threads, s.d.leases.settling, s.d.users.freeing)
  }

  ghost predicate Inv(s: Sys) {
    KeyInv(s.d) && StreamInv(s.d) && CallInv(s.d) && ThreadInv(s)
  }

  // ----- What a section of goroutine `t` leaves alone -----

  ghost predicate CoordinatorMoves(c: State, e: State, t: nat, owner: map<nat, nat>) {
    && (e.leaseID == c.leaseID || e.leaseID == 0 || e.leaseID > c.nextID)
    && (e.leaseID == c.leaseID && c.stopping ==> e.stopping)
    && (e.source == c.source || e.source.None? || (e.source.value in owner && owner[e.source.value] == t))
  }

  ghost predicate LeasesMove(a: Leases, b: Leases, t: nat) {
    && (forall l <- a.owner :: l in b.owner && b.owner[l] == a.owner[l])
    && a.released <= b.released && a.startFrames <= b.startFrames
    && (forall l <- b.settling | b.settling[l] != t :: l in a.settling && a.settling[l] == b.settling[l])
  }

  ghost predicate ConsumersMove(a: Consumers, b: Consumers, t: nat) {
    && (forall k <- a.leaseOf :: k in b.leaseOf && b.leaseOf[k] == a.leaseOf[k])
    && (forall k <- a.acquirer :: k in b.acquirer && b.acquirer[k] == a.acquirer[k]
          && (k in b.joined ==> k in a.joined || a.acquirer[k] == t))
    && (forall k <- a.freeing | a.freeing[k] != t :: k in b.freeing && b.freeing[k] == a.freeing[k])
    && (forall k <- b.freeing | b.freeing[k] != t :: k in a.freeing && b.freeing[k] == a.freeing[k])
  }

  ghost predicate PreviewsMove(d: Shared, e: Shared) {
    forall l <- d.fans :: WillPromote(d.c, d.m, d.inflight, l) ==> WillPromote(e.c, e.m, e.inflight, l)
  }

  ghost predicate Moves(d: Shared, e: Shared, t: nat) {
    && CoordinatorMoves(d.c, e.c, t, d.leases.owner) && LeasesMove(d.leases, e.leases, t)
    && ConsumersMove(d.users, e.users, t) && PreviewsMove(d, e)
    && d.fans.Keys <= e.fans.Keys && d.sessions.Keys <= e.sessions.Keys && d.late <= e.late
  }

  /** What the goroutine goes on to is what the history now says of it. */
  ghost predicate Named(next: Option<Pc>, t: nat, settling: map<nat, nat>, freeing: map<nat, nat>) {
    && (forall l <- settling | settling[l] == t :: next == Some(SettlingStop(l)))
    && (forall k <- freeing | freeing[k] == t :: next.Some? && next.value.FreeingUplink? && next.value.consumer == k)
  }

  ghost predicate GoesOn(o: Outcome, t: nat) {
    && (o.next.Some? ==> PcInv(o.d, t, o.next.value))
    && Named(o.next, t, o.d.leases.settling, o.d.users.freeing)
  }

  lemma OthersStay(d: Shared, e: Shared, t: nat, u: nat, pc: Pc)
    requires KeyInv(d) && Moves(d, e, t) && u != t && PcInv(d, u, pc)
    ensures PcInv(e, u, pc)
  {
  }

  lemma SettlersStay(threads: map<nat, Pc>, t: nat, next: Option<Pc>, a: Leases, b: Leases)
    requires forall l <- a.settling :: Holds(threads, a.settling[l], SettlingStop(l))
    requires LeasesMove(a, b, t) && forall l <- b.settling | b.settling[l] == t :: next == Some(SettlingStop(l))
    ensures forall l <- b.settling :: Holds(After(threads, t, next), b.settling[l], SettlingStop(l))
  {
    forall l <- b.settling
      ensures Holds(After(threads, t, next), b.settling[l], SettlingStop(l))
    {
      if b.settling[l] != t { assert Holds(threads, a.settling[l], SettlingStop(l)); }
    }
  }

  lemma FreersStay(threads: map<nat, Pc>, t: nat, next: Option<Pc>, a: Leases, b: Leases, h: Consumers, g: Consumers)
    requires NamedInv(threads, a.settling, h.freeing) && ConsumersMove(h, g, t) && Named(next, t, b.settling, g.freeing)
    ensures forall k <- g.freeing :: IsFreeing(After(threads, t, next), g.freeing[k], k)
  {
    forall k <- g.freeing
      ensures IsFreeing(After(threads, t, next), g.freeing[k], k)
    {
      if g.freeing[k] != t { assert IsFreeing(threads, h.freeing[k], k); }
    }
  }

  lemma NamesStay(threads: map<nat, Pc>, t: nat, next: Option<Pc>, a: Leases, b: Leases, h: Consumers, g: Consumers)
    requires NamedInv(threads, a.settling, h.freeing)
    requires LeasesMove(a, b, t) && ConsumersMove(h, g, t) && Named(next, t, b.settling, g.freeing)
    ensures NamedInv(After(threads, t, next), b.settling, g.freeing)
  {
    SettlersStay(threads, t, next, a, b);
    FreersStay(threads, t, next, a, b, h, g);
  }

  lemma PcsStay(d: Shared, e: Shared, t: nat, threads: map<nat, Pc>, nextThread: nat, next: Option<Pc>)
    requires KeyInv(d) && Moves(d, e, t) && PcsInv(d, threads, nextThread) && t <= nextThread
    requires next.Some? ==> PcInv(e, t, next.value)
    ensures PcsInv(e, After(threads, t, next), if t == nextThread then t + 1 else nextThread)
  {
    forall u <- After(threads, t, next)
      ensures u < (if t == nextThread then t + 1 else nextThread) && PcInv(e, u, After(threads, t, next)[u])
    {
      if u != t { OthersStay(d, e, t, u, threads[u]); }
    }
  }

  // ----- Every section keeps them -----

  ghost predicate SharedInv(d: Shared) {
    KeyInv(d) && StreamInv(d) && CallInv(d)
  }

  /** Goroutine `t` is not one the history names. */
  ghost predicate Unnamed(d: Shared, t: nat) {
    Named(None, t, d.leases.settling, d.users.freeing)
  }

  ghost predicate Framed(d: Shared, o: Outcome, t: nat) {
    KeyInv(o.d) && Moves(d, o.d, t) && GoesOn(o, t)
  }

  ghost predicate Keeps(d: Shared, o: Outcome, t: nat) {
    StreamInv(o.d) && CallInv(o.d) && Framed(d, o, t)
  }

  predicate Plain(next: Option<Pc>) {
    next.Some? ==> !next.value.SettlingStop? && !next.value.FreeingUplink?
  }

  lemma WalkKeeps(d: Shared, t: nat, o: Outcome)
    requires SharedInv(d) && Unnamed(d, t) && o.d == d
    requires (o.next.Some? ==> PcInv(d, t, o.next.value)) && Plain(o.next)
    ensures Keeps(d, o, t)
  {
  }

  // Reserving

  lemma IssuedKeeps(live: nat, leaseID: nat, talker: nat, fans: map<nat, Fan>, h: Consumers, k: nat, l: nat, t: nat, ask: Ask)
    requires FanInv(live, fans, h) && TalkInv(leaseID, talker, fans, h)
    requires k !in h.leaseOf && h.joined <= h.leaseOf.Keys && h.admitted <= h.joined
    ensures FanInv(live, fans, Issued(h, k, l, t, ask)) && TalkInv(leaseID, talker, fans, Issued(h, k, l, t, ask))
  {
  }

  lemma JoinFramed(d: Shared, t: nat, ep: string, mode: Mode, ringing: bool, answered: bool, o: Outcome)
    requires KeyInv(d) && Unnamed(d, t) && FanInv(Live(d.c), d.fans, d.users)
    requires Decide(d.c, ep, mode, ringing, answered).Join? && o == ReserveSection(d, t, ep, mode, ringing, answered)
    ensures Framed(d, o, t)
  {
    ReserveKeepsValid(d.c, ep, mode, ringing, answered);
  }

  lemma JoinLeaves(d: Shared, t: nat, ep: string, mode: Mode, ringing: bool, answered: bool, o: Outcome)
    requires Decide(d.c, ep, mode, ringing, answered).Join? && o == ReserveSection(d, t, ep, mode, ringing, answered)
    ensures o.d == d.(c := d.c.(nextConsumer := d.c.nextConsumer + 1),
                      users := Issued(d.users, d.c.nextConsumer + 1, d.c.leaseID, t, Ask(ep, mode, ringing, answered)))
  {
  }

  lemma JoinStreams(d: Shared, t: nat, k: nat, l: nat, ask: Ask, e: Shared)
    requires KeyInv(d) && StreamInv(d) && k == d.c.nextConsumer + 1
    requires e == d.(c := d.c.(nextConsumer := k), users := Issued(d.users, k, l, t, ask))
    ensures StreamInv(e)
  {
    assert k !in d.users.leaseOf;
    IssuedKeeps(Live(d.c), d.c.leaseID, d.c.talker, d.fans, d.users, k, l, t, ask);
  }

  lemma JoinCalls(d: Shared, t: nat, ep: string, mode: Mode, ringing: bool, answered: bool, o: Outcome)
    requires KeyInv(d) && CallInv(d)
    requires Decide(d.c, ep, mode, ringing, answered).Join? && o == ReserveSection(d, t, ep, mode, ringing, answered)
    ensures CallInv(o.d)
  {
  }

  lemma NewLeaseKeys(d: Shared, t: nat, ep: string, mode: Mode, ringing: bool, answered: bool, o: Outcome)
    requires KeyInv(d)
    requires Decide(d.c, ep, mode, ringing, answered).New? && o == ReserveSection(d, t, ep, mode, ringing, answered)
    ensures KeyInv(o.d)
  {
    ReserveKeepsValid(d.c, ep, mode, ringing, answered);
  }

  lemma NewLeaseMoves(d: Shared, t: nat, ep: string, mode: Mode, ringing: bool, answered: bool, o: Outcome)
    requires KeyInv(d) && Unnamed(d, t) && SourceInv(d.c, d.sessions.Keys, d.late)
    requires Decide(d.c, ep, mode, ringing, answered).New? && o == ReserveSection(d, t, ep, mode, ringing, answered)
    ensures Moves(d, o.d, t) && GoesOn(o, t)
  {
  }

  lemma NewFanKeeps(leaseID: nat, talker: nat, fans: map<nat, Fan>, h: Consumers, l: nat)
    requires FanInv(0, fans, h) && TalkInv(leaseID, talker, fans, h) && l != 0 && l !in fans
    requires forall k <- h.leaseOf :: h.leaseOf[k] in fans
    ensures FanInv(l, fans[l := Fan({}, false)], h) && TalkInv(l, 0, fans[l := Fan({}, false)], h)
  {
  }

  lemma NewLeaseLeaves(d: Shared, t: nat, ep: string, mode: Mode, ringing: bool, answered: bool, o: Outcome)
    requires Decide(d.c, ep, mode, ringing, answered).New? && o == ReserveSection(d, t, ep, mode, ringing, answered)
    ensures
      var l, k, e := d.c.nextID + 1, d.c.nextConsumer + 1, o.d;
      && d.c.leaseID == 0 && e.c.leaseID == e.c.nextID == l && Live(e.c) == (if d.c.stopping then 0 else l)
      && e.c.stopping == d.c.stopping && e.c.talker == 0 && e.c.controlLeaseID == 0
      && e.fans == d.fans[l := Fan({}, false)] && e.starts == d.starts[l := Open]
      && e.users == Issued(d.users, k, l, t, Ask(ep, mode, ringing, answered))
      && e.leases == d.leases.(first := e.leases.first, owner := e.leases.owner, previews := e.leases.previews)
  {
  }

  lemma NewLeaseStreams(d: Shared, t: nat, ask: Ask, e: Shared, l: nat, k: nat)
    requires KeyInv(d) && StreamInv(d) && d.c.leaseID == 0 && l == d.c.nextID + 1 && k == d.c.nextConsumer + 1
    requires e.c.leaseID == e.c.nextID == l && !e.c.stopping && e.c.talker == 0 && e.c.controlLeaseID == 0
    requires e.fans == d.fans[l := Fan({}, false)] && e.starts == d.starts[l := Open]
    requires e.users == Issued(d.users, k, l, t, ask)
    requires e.leases == d.leases.(first := e.leases.first, owner := e.leases.owner, previews := e.leases.previews)
    ensures StreamInv(e)
  {
    NewFanKeeps(0, d.c.talker, d.fans, d.users, l);
    IssuedKeeps(l, l, 0, d.fans[l := Fan({}, false)], d.users, k, l, t, ask);
    NewStartKeeps(d.starts, d.leases.settling, l);
    NewLeaseWins(d.c, d.leases, e.c, e.leases);
  }

  lemma NewStartKeeps(starts: map<nat, Startup>, settling: map<nat, nat>, l: nat)
    requires StartInv(0, starts, settling) && l != 0
    ensures StartInv(l, starts[l := Open], settling)
  {
  }

  lemma NewLeaseWins(c: State, h: Leases, e: State, g: Leases)
    requires WinInv(c, h) && c.leaseID == 0 && e.leaseID == e.nextID == c.nextID + 1 && !e.stopping && e.controlLeaseID == 0
    requires g == h.(first := g.first, owner := g.owner, previews := g.previews)
    ensures WinInv(e, g)
  {
  }

  lemma NewLeaseCalls(d: Shared, t: nat, ep: string, mode: Mode, ringing: bool, answered: bool, o: Outcome)
    requires KeyInv(d) && CallInv(d)
    requires Decide(d.c, ep, mode, ringing, answered).New? && o == ReserveSection(d, t, ep, mode, ringing, answered)
    ensures CallInv(o.d)
  {
  }

  // Joining

  lemma AddFramed(d: Shared, t: nat, l: nat, k: nat, next: Option<Pc>, o: Outcome)
    requires KeyInv(d) && Pending(d, t, l, k) && !d.fans[l].closed && o == AddSection(d, l, k, next)
    ensures KeyInv(o.d) && Moves(d, o.d, t)
  {
  }

  lemma AddGoesOn(d: Shared, t: nat, l: nat, k: nat, next: Option<Pc>, o: Outcome)
    requires Unnamed(d, t) && l in d.fans && !d.fans[l].closed && o == AddSection(d, l, k, next)
    requires next.None? || (next.value.Creating? && next.value.lease == l && Unattached(d, t, l))
    ensures GoesOn(o, t)
  {
  }

  lemma AddStreams(live: nat, leaseID: nat, talker: nat, fans: map<nat, Fan>, h: Consumers, l: nat, k: nat)
    requires FanInv(live, fans, h) && TalkInv(leaseID, talker, fans, h) && h.admitted <= h.joined
    requires l in fans && k in h.leaseOf && h.leaseOf[k] == l && k !in h.joined
    ensures FanInv(live, WithConsumer(fans, l, k), h.(joined := h.joined + {k}))
    ensures TalkInv(leaseID, talker, WithConsumer(fans, l, k), h.(joined := h.joined + {k}))
  {
  }

  lemma AddKeeps(d: Shared, t: nat, l: nat, k: nat, next: Option<Pc>, o: Outcome)
    requires SharedInv(d) && Unnamed(d, t) && Pending(d, t, l, k)
    requires !d.fans[l].closed && o == AddSection(d, l, k, next)
    requires next.None? || (next.value.Creating? && next.value.lease == l && Unattached(d, t, l))
    ensures Keeps(d, o, t)
  {
    AddFramed(d, t, l, k, next, o);
    AddGoesOn(d, t, l, k, next, o);
    AddStreams(Live(d.c), d.c.leaseID, d.c.talker, d.fans, d.users, l, k);
  }

  // Sessions

  lemma SessionStays(x: nat, y: S.Sys, a: S.Action, released: set<nat>, late: set<nat>, askedBy: map<nat, nat>)
    requires SessionInv(x, y, released, late, askedBy) && !a.EndCallOnCloseCalled?
    ensures SessionInv(x, S.Step(y, a), released, late, askedBy)
  {
    S.StepKeepsInv(y, a);
  }

  lemma SessionFramed(d: Shared, t: nat, x: nat, a: S.Action, o: Outcome)
    requires KeyInv(d) && Unnamed(d, t) && o.d == d.(sessions := SessionStep(d.sessions, x, a))
    requires o.next.None? || (o.next.value.Clearing? && PcInv(d, t, o.next.value))
    ensures Framed(d, o, t)
  {
  }

  lemma SessionCalls(d: Shared, x: nat, a: S.Action)
    requires CallInv(d) && !a.EndCallOnCloseCalled?
    ensures CallInv(d.(sessions := SessionStep(d.sessions, x, a)))
  {
    if x in d.sessions { SessionStays(x, d.sessions[x], a, d.leases.released, d.late, d.askedBy); }
  }

  lemma SessionKeeps(d: Shared, t: nat, x: nat, a: S.Action, o: Outcome)
    requires SharedInv(d) && Unnamed(d, t) && !a.EndCallOnCloseCalled?
    requires o.d == d.(sessions := SessionStep(d.sessions, x, a))
    requires o.next.None? || (o.next.value.Clearing? && PcInv(d, t, o.next.value))
    ensures Keeps(d, o, t)
  {
    SessionFramed(d, t, x, a, o);
    SessionCalls(d, x, a);
  }

  lemma NewSessionStays(x: nat, released: set<nat>, late: set<nat>, askedBy: map<nat, nat>)
    ensures SessionInv(x, S.START, released, late, askedBy)
    ensures SessionInv(x, S.Step(S.START, S.PrepareCalled), released, late, askedBy)
  {
  }

  lemma MadeFramed(d: Shared, t: nat, l: nat, y: S.Sys, o: Outcome)
    requires KeyInv(d) && Unnamed(d, t) && Unattached(d, t, l) && o.d == d.(sessions := d.sessions[l := y])
    requires o.next == Some(Attaching(l)) || o.next == Some(Closing(l, l, SourceCreation))
    ensures Framed(d, o, t)
  {
  }

  lemma MadeCalls(d: Shared, l: nat, y: S.Sys)
    requires CallInv(d) && SessionInv(l, y, d.leases.released, d.late, d.askedBy)
    ensures CallInv(d.(sessions := d.sessions[l := y]))
  {
  }

  lemma MadeKeeps(d: Shared, t: nat, l: nat, y: S.Sys, o: Outcome)
    requires SharedInv(d) && Unnamed(d, t) && Unattached(d, t, l) && o.d == d.(sessions := d.sessions[l := y])
    requires o.next == Some(Attaching(l)) || o.next == Some(Closing(l, l, SourceCreation))
    requires SessionInv(l, y, d.leases.released, d.late, d.askedBy)
    ensures Keeps(d, o, t)
  {
    MadeFramed(d, t, l, y, o);
    MadeCalls(d, l, y);
  }

  lemma PreparedSessions(sessions: map<nat, S.Sys>, l: nat, y: S.Sys, a: S.Action)
    ensures SessionStep(sessions[l := y], l, a) == sessions[l := S.Step(y, a)]
  {
  }

  lemma CreateKeeps(d: Shared, t: nat, l: nat, preview: bool, choice: nat, o: Outcome)
    requires SharedInv(d) && Unnamed(d, t) && Unattached(d, t, l) && choice != 0
    requires o == CreateSection(d, l, preview, choice)
    ensures Keeps(d, o, t)
  {
    NewSessionStays(l, d.leases.released, d.late, d.askedBy);
    PreparedSessions(d.sessions, l, S.START, S.PrepareCalled);
    MadeKeeps(d, t, l, if choice != 1 && preview then S.Step(S.START, S.PrepareCalled) else S.START, o);
  }

  lemma TellFramed(d: Shared, t: nat, l: nat, x: nat, cause: Cause, o: Outcome)
    requires KeyInv(d) && Unnamed(d, t) && PcInv(d, t, Telling(l, x, cause)) && o == TellSection(d, l, x, cause)
    ensures Framed(d, o, t)
  {
  }

  lemma AskStays(x: nat, y: S.Sys, l: nat, released: set<nat>, late: set<nat>, askedBy: map<nat, nat>)
    requires S.Inv(y) && l in released && OwnOrLate(late, l, x)
    ensures SessionInv(x, S.Step(y, S.EndCallOnCloseCalled), released, late, askedBy[x := l])
  {
    S.StepKeepsInv(y, S.EndCallOnCloseCalled);
  }

  lemma TellCalls(d: Shared, l: nat, x: nat, cause: Cause, o: Outcome)
    requires CallInv(d) && x in d.sessions && l in d.leases.released && OwnOrLate(d.late, l, x)
    requires o == TellSection(d, l, x, cause)
    ensures CallInv(o.d)
  {
    AskStays(x, d.sessions[x], l, d.leases.released, d.late, d.askedBy);
  }

  lemma AttachKeeps(d: Shared, t: nat, l: nat, o: Outcome)
    requires SharedInv(d) && Unnamed(d, t) && Unattached(d, t, l) && l in d.sessions
    requires Current(d.c, l) && o == AttachSection(d, l)
    ensures Keeps(d, o, t)
  {
  }

  // Startup

  lemma FinishStartFramed(d: Shared, t: nat, l: nat, answered: bool, o: Outcome)
    requires KeyInv(d) && o == FinishStartSection(d, l, answered)
    ensures KeyInv(o.d) && Moves(d, o.d, t)
  {
    StartupKeepsValid(d.c, l, answered);
  }

  lemma FinishStartGoesOn(d: Shared, t: nat, l: nat, answered: bool, o: Outcome)
    requires Unnamed(d, t) && Owns(d, t, l) && o == FinishStartSection(d, l, answered)
    ensures GoesOn(o, t)
  {
  }

  lemma FinishStartStreams(d: Shared, l: nat, answered: bool, o: Outcome)
    requires StreamInv(d) && o == FinishStartSection(d, l, answered)
    ensures StreamInv(o.d)
  {
  }

  lemma FinishStartCalls(d: Shared, t: nat, l: nat, answered: bool, o: Outcome)
    requires CallInv(d) && (!answered ==> WillPromote(d.c, d.m, d.inflight, l)) && o == FinishStartSection(d, l, answered)
    ensures CallInv(o.d)
  {
  }

  lemma SettleStartKeeps(d: Shared, t: nat, l: nat, o: Outcome)
    requires SharedInv(d) && Unnamed(d, t) && l in d.fans
    requires o == Outcome(d.(starts := Settled(d.starts, l, true)), None)
    ensures Keeps(d, o, t)
  {
  }

  lemma SettleStopFramed(d: Shared, t: nat, l: nat, o: Outcome)
    requires KeyInv(d) && Named(Some(SettlingStop(l)), t, d.leases.settling, d.users.freeing) && l in d.fans
    requires o == SettleStopSection(d, l)
    ensures Framed(d, o, t)
  {
  }

  lemma SettleStopKeeps(d: Shared, t: nat, l: nat, o: Outcome)
    requires StreamInv(d) && CallInv(d) && l in d.fans && o == SettleStopSection(d, l)
    ensures StreamInv(o.d) && CallInv(o.d)
  {
  }

  // Leaving

  lemma RemoveFramed(d: Shared, t: nat, l: nat, k: nat, cause: Cause, o: Outcome)
    requires KeyInv(d) && Unnamed(d, t) && FanInv(Live(d.c), d.fans, d.users) && Leaver(d, l, k, cause)
    requires k in d.fans[l].consumers && o == RemoveSection(d, t, l, k, cause)
    ensures KeyInv(o.d) && Moves(d, o.d, t)
  {
  }

  lemma RemoveGoesOn(d: Shared, t: nat, l: nat, k: nat, cause: Cause, o: Outcome)
    requires Unnamed(d, t) && Leaver(d, l, k, cause)
    requires k in d.fans[l].consumers && o == RemoveSection(d, t, l, k, cause)
    ensures GoesOn(o, t)
  {
  }

  lemma RemoveStreams(d: Shared, t: nat, l: nat, k: nat, cause: Cause, o: Outcome)
    requires StreamInv(d) && Leaver(d, l, k, cause)
    requires k in d.fans[l].consumers && o == RemoveSection(d, t, l, k, cause)
    ensures StreamInv(o.d)
  {
  }

  lemma RemoveCalls(d: Shared, t: nat, l: nat, k: nat, cause: Cause, o: Outcome)
    requires CallInv(d) && l in d.fans && k in d.fans[l].consumers && o == RemoveSection(d, t, l, k, cause)
    ensures CallInv(o.d)
  {
  }

  lemma FreeUplinkKeys(d: Shared, l: nat, k: nat, cause: Cause, last: bool, o: Outcome)
    requires KeyInv(d) && o == FreeUplinkSection(d, l, k, cause, last)
    ensures KeyInv(o.d)
  {
    UplinkKeepsValid(d.c, l, k, false);
  }

  lemma FreeUplinkMoves(d: Shared, t: nat, l: nat, k: nat, cause: Cause, last: bool, o: Outcome)
    requires PcInv(d, t, FreeingUplink(l, k, cause, last)) && d.users.leaseOf.Keys == d.users.acquirer.Keys
    requires o == FreeUplinkSection(d, l, k, cause, last)
    ensures Moves(d, o.d, t)
  {
  }

  lemma FreeUplinkGoesOn(d: Shared, t: nat, l: nat, k: nat, cause: Cause, last: bool, o: Outcome)
    requires PcInv(d, t, FreeingUplink(l, k, cause, last))
    requires Named(Some(FreeingUplink(l, k, cause, last)), t, d.leases.settling, d.users.freeing)
    requires o == FreeUplinkSection(d, l, k, cause, last)
    ensures GoesOn(o, t)
  {
  }

  lemma UplinkFrees(leaseID: nat, talker: nat, fans: map<nat, Fan>, h: Consumers, live: nat, k: nat)
    requires FanInv(live, fans, h) && TalkInv(leaseID, talker, fans, h) && k in h.freeing
    ensures FanInv(live, fans, h.(freeing := h.freeing - {k}))
    ensures TalkInv(leaseID, if talker == k then 0 else talker, fans, h.(freeing := h.freeing - {k}))
  {
  }

  lemma FreeUplinkStreams(d: Shared, t: nat, l: nat, k: nat, cause: Cause, last: bool, o: Outcome)
    requires KeyInv(d) && StreamInv(d) && PcInv(d, t, FreeingUplink(l, k, cause, last))
    requires o == FreeUplinkSection(d, l, k, cause, last)
    ensures StreamInv(o.d)
  {
    assert o.d.c == d.c.(talker := if d.c.talker == k then 0 else d.c.talker);
    UplinkFrees(d.c.leaseID, d.c.talker, d.fans, d.users, Live(d.c), k);
  }

  lemma FreeUplinkCalls(d: Shared, l: nat, k: nat, cause: Cause, last: bool, o: Outcome)
    requires CallInv(d) && o == FreeUplinkSection(d, l, k, cause, last)
    ensures CallInv(o.d)
  {
  }

  // Tearing down

  lemma StopFramed(d: Shared, t: nat, l: nat, cause: Cause, o: Outcome)
    requires KeyInv(d) && Unnamed(d, t) && MayStop(d, l, cause) && SourceInv(d.c, d.sessions.Keys, d.late)
    requires Wins(d.c, l) && o == StopSection(d, l, cause)
    ensures Framed(d, o, t)
  {
    StopKeepsValid(d.c, l);
  }

  lemma FanCloses(leaseID: nat, talker: nat, fans: map<nat, Fan>, h: Consumers, l: nat)
    requires FanInv(l, fans, h) && TalkInv(leaseID, talker, fans, h)
    ensures FanInv(0, ClosedFans(fans, l), h) && TalkInv(leaseID, talker, ClosedFans(fans, l), h)
  {
  }

  lemma StopStreams(d: Shared, t: nat, l: nat, cause: Cause, o: Outcome)
    requires KeyInv(d) && StreamInv(d) && MayStop(d, l, cause) && Wins(d.c, l) && o == StopSection(d, l, cause)
    ensures StreamInv(o.d)
  {
    FanCloses(d.c.leaseID, d.c.talker, d.fans, d.users, l);
  }

  lemma StopCalls(d: Shared, l: nat, cause: Cause, o: Outcome)
    requires CallInv(d) && Wins(d.c, l) && o == StopSection(d, l, cause)
    ensures CallInv(o.d)
  {
  }

  lemma ClearFramed(d: Shared, t: nat, l: nat, cause: Cause, o: Outcome)
    requires KeyInv(d) && Unnamed(d, t) && l in d.fans && Current(d.c, l) && o == ClearSection(d, t, l)
    ensures Framed(d, o, t)
  {
    StopKeepsValid(d.c, l);
  }

  lemma ClearStreams(d: Shared, t: nat, l: nat, o: Outcome)
    requires KeyInv(d) && StreamInv(d) && Current(d.c, l) && o == ClearSection(d, t, l)
    ensures StreamInv(o.d)
  {
  }

  lemma ClearCalls(d: Shared, t: nat, l: nat, cause: Cause, o: Outcome)
    requires KeyInv(d) && CallInv(d) && TearsDown(d, t, l, cause) && Current(d.c, l) && o == ClearSection(d, t, l)
    ensures CallInv(o.d)
  {
  }

  // The environment

  lemma DeliverKeys(d: Shared)
    requires KeyInv(d)
    ensures KeyInv(DeliverSection(d))
  {
    PromoteKeepsValid(d.c);
  }

  lemma DeliverMoves(d: Shared, e: Shared)
    requires C.Valid(d.c) && e == DeliverSection(d)
    ensures PreviewsMove(d, e)
  {
  }

  lemma DeliverLeaves(d: Shared, e: Shared)
    requires e == DeliverSection(d)
    ensures e == d.(c := e.c, inflight := None, leases := d.leases.(promotions := e.leases.promotions))
    ensures e.c.leaseID == d.c.leaseID && e.c.stopping == d.c.stopping && e.c.source == d.c.source
  {
  }

  lemma DeliverFramed(d: Shared, t: nat, e: Shared)
    requires PreviewsMove(d, e) && Unnamed(d, t)
    requires e == d.(c := e.c, inflight := None, leases := d.leases.(promotions := e.leases.promotions))
    requires e.c.leaseID == d.c.leaseID && e.c.stopping == d.c.stopping && e.c.source == d.c.source
    ensures Moves(d, e, t) && GoesOn(Outcome(e, None), t)
  {
  }

  lemma DeliverKeeps(d: Shared, t: nat, e: Shared)
    requires SharedInv(d) && Unnamed(d, t) && e == DeliverSection(d)
    ensures Keeps(d, Outcome(e, None), t)
  {
    DeliverKeys(d);
    DeliverMoves(d, e);
    DeliverLeaves(d, e);
    DeliverFramed(d, t, e);
    DeliverStreams(d);
    DeliverCalls(d);
  }

  lemma DeliverStreams(d: Shared)
    requires StreamInv(d)
    ensures StreamInv(DeliverSection(d))
  {
  }

  lemma DeliverCalls(d: Shared)
    requires KeyInv(d) && CallInv(d)
    ensures CallInv(DeliverSection(d))
  {
  }

  lemma SpeakFramed(d: Shared, t: nat, k: nat, onStream: bool, e: Shared)
    requires KeyInv(d) && FanInv(Live(d.c), d.fans, d.users) && Unnamed(d, t) && k in d.users.leaseOf
    requires TalkInv(d.c.leaseID, d.c.talker, d.fans, d.users) && onStream == OnStream(d.fans, d.users, k)
    requires e == SpeakSection(d, k, d.users.leaseOf[k], onStream)
    ensures Framed(d, Outcome(e, None), t)
  {
    UplinkKeepsValid(d.c, d.users.leaseOf[k], k, onStream);
  }

  lemma UplinkSpeaks(leaseID: nat, talker: nat, fans: map<nat, Fan>, h: Consumers, live: nat, k: nat, next: nat, admitted: set<nat>)
    requires FanInv(live, fans, h) && TalkInv(leaseID, talker, fans, h) && k in h.leaseOf && 0 !in h.leaseOf
    requires next == talker || (talker == 0 && next == k && h.leaseOf[k] == leaseID && OnStream(fans, h, k))
    requires admitted == h.admitted || (next == k && admitted == h.admitted + {k})
    ensures FanInv(live, fans, h.(admitted := admitted)) && TalkInv(leaseID, next, fans, h.(admitted := admitted))
  {
    assert OnStream(fans, h, k) ==> k in fans[h.leaseOf[k]].consumers;
  }

  lemma SpeakStreams(d: Shared, k: nat, onStream: bool, e: Shared)
    requires KeyInv(d) && StreamInv(d) && k in d.users.leaseOf && onStream == OnStream(d.fans, d.users, k)
    requires e == SpeakSection(d, k, d.users.leaseOf[k], onStream)
    ensures StreamInv(e)
  {
    assert 0 !in d.users.leaseOf;
    UplinkSpeaks(d.c.leaseID, d.c.talker, d.fans, d.users, Live(d.c), k, e.c.talker, e.users.admitted);
  }

  lemma SpeakCalls(d: Shared, k: nat, onStream: bool, e: Shared)
    requires CallInv(d) && k in d.users.leaseOf && e == SpeakSection(d, k, d.users.leaseOf[k], onStream)
    ensures CallInv(e)
  {
  }

  lemma ManageFramed(d: Shared, t: nat, op: M.Op, e: Shared)
    requires KeyInv(d) && Unnamed(d, t) && M.Callable(d.m, op) && e == d.(m := M.Commit(d.m, op))
    requires forall l: nat :: WillPromote(d.c, d.m, d.inflight, l) ==> WillPromote(e.c, e.m, e.inflight, l)
    ensures Framed(d, Outcome(e, None), t)
  {
    M.CommitKeepsValid(d.m, op);
  }

  /** The call is answered by the commit that queues its CallAnswered, and stays the same call. */
  lemma CommitKeepsPromise(c: State, m: M.State, inflight: Option<E.Event>, op: M.Op, n: M.State)
    requires M.Valid(m) && M.Callable(m, op) && n == M.Commit(m, op)
    ensures NotStuck(c, m, inflight) ==> NotStuck(c, n, inflight)
    ensures forall l: nat :: WillPromote(c, m, inflight, l) ==> WillPromote(c, n, inflight, l)
  {
    M.AnsweredOnlyByEvent(m, op);
    AnsweredStaysNamed(m, op, n);
    PromiseStays(c, m, inflight, n);
  }

  lemma AnsweredStaysNamed(m: M.State, op: M.Op, n: M.State)
    requires M.Valid(m) && M.Callable(m, op) && n == M.Commit(m, op)
    ensures M.HasAnsweredInboundCall(m) && M.HasAnsweredInboundCall(n) ==> n.activeID == m.activeID
  {
  }

  lemma PromiseStays(c: State, m: M.State, inflight: Option<E.Event>, n: M.State)
    requires m.pending <= n.pending
    requires M.HasAnsweredInboundCall(n) ==>
               if M.HasAnsweredInboundCall(m) then n.activeID == m.activeID
               else n.pending == m.pending + [E.CallAnswered(n.activeID)]
    ensures NotStuck(c, m, inflight) ==> NotStuck(c, n, inflight)
    ensures forall l: nat :: WillPromote(c, m, inflight, l) ==> WillPromote(c, n, inflight, l)
  {
    assert forall e :: e in m.pending ==> e in n.pending;
    assert M.HasAnsweredInboundCall(n) ==> M.HasAnsweredInboundCall(m) || E.CallAnswered(n.activeID) in n.pending;
  }

  lemma ManageKeeps(d: Shared, t: nat, op: M.Op, e: Shared)
    requires SharedInv(d) && Unnamed(d, t) && M.Callable(d.m, op) && e == d.(m := M.Commit(d.m, op))
    ensures Keeps(d, Outcome(e, None), t)
  {
    CommitKeepsPromise(d.c, d.m, d.inflight, op, e.m);
    ManageFramed(d, t, op, e);
  }

  lemma TakeKeeps(d: Shared, t: nat)
    requires SharedInv(d) && Unnamed(d, t) && d.inflight.None? && d.m.pending != []
    ensures Keeps(d, Outcome(d.(m := M.Pop(d.m), inflight := Some(d.m.pending[0])), None), t)
  {
  }

  lemma TrackFramed(d: Shared, t: nat, video: bool)
    requires KeyInv(d) && Unnamed(d, t)
    ensures Framed(d, Outcome(TrackSection(d, video), None), t)
  {
    ObserveKeepsValid(d.c, video);
  }

  lemma TrackLeaves(d: Shared, video: bool, e: Shared)
    requires e == TrackSection(d, video)
    ensures e == d.(c := e.c, leases := d.leases.(startFrames := e.leases.startFrames))
    ensures Live(e.c) == Live(d.c) && e.c.leaseID == d.c.leaseID && e.c.talker == d.c.talker
    ensures e.c.nextID == d.c.nextID && e.c.stopping == d.c.stopping
    ensures d.leases.startFrames <= e.leases.startFrames
    ensures e.c.controlLeaseID == d.c.controlLeaseID || e.c.controlLeaseID in e.leases.startFrames
  {
  }

  lemma TrackStreams(d: Shared, video: bool)
    requires StreamInv(d)
    ensures StreamInv(TrackSection(d, video))
  {
    TrackLeaves(d, video, TrackSection(d, video));
  }

  lemma TrackCalls(d: Shared, video: bool)
    requires CallInv(d)
    ensures CallInv(TrackSection(d, video))
  {
  }

  lemma ObserveStopKeeps(d: Shared, t: nat)
    requires SharedInv(d) && Unnamed(d, t)
    ensures Keeps(d, Outcome(d.(c := ObserveStop(d.c)), None), t)
  {
  }

  // ----- Every step keeps them -----

  lemma ReserveKeeps(d: Shared, t: nat, ep: string, mode: Mode, ringing: bool, answered: bool, o: Outcome)
    requires SharedInv(d) && Unnamed(d, t) && o == ReserveSection(d, t, ep, mode, ringing, answered)
    ensures Keeps(d, o, t)
  {
    match Decide(d.c, ep, mode, ringing, answered)
    case Refused(_) => WalkKeeps(d, t, o);
    case Join(_, _) =>
      JoinFramed(d, t, ep, mode, ringing, answered, o);
      JoinLeaves(d, t, ep, mode, ringing, answered, o);
      JoinStreams(d, t, d.c.nextConsumer + 1, d.c.leaseID, Ask(ep, mode, ringing, answered), o.d);
      JoinCalls(d, t, ep, mode, ringing, answered, o);
    case New(_, _, _) =>
      NewLeaseKeys(d, t, ep, mode, ringing, answered, o);
      NewLeaseMoves(d, t, ep, mode, ringing, answered, o);
      NewLeaseLeaves(d, t, ep, mode, ringing, answered, o);
      NewLeaseStreams(d, t, Ask(ep, mode, ringing, answered), o.d, d.c.nextID + 1, d.c.nextConsumer + 1);
      NewLeaseCalls(d, t, ep, mode, ringing, answered, o);
  }

  lemma FinishStartKeeps(d: Shared, t: nat, l: nat, answered: bool, o: Outcome)
    requires SharedInv(d) && Unnamed(d, t) && PcInv(d, t, FinishingStart(l, answered))
    requires o == FinishStartSection(d, l, answered)
    ensures Keeps(d, o, t)
  {
    FinishStartFramed(d, t, l, answered, o);
    FinishStartGoesOn(d, t, l, answered, o);
    FinishStartStreams(d, l, answered, o);
    FinishStartCalls(d, t, l, answered, o);
  }

  lemma RemoveKeeps(d: Shared, t: nat, l: nat, k: nat, cause: Cause, o: Outcome)
    requires SharedInv(d) && Unnamed(d, t) && Leaver(d, l, k, cause) && o == RemoveSection(d, t, l, k, cause)
    ensures Keeps(d, o, t)
  {
    if k in d.fans[l].consumers {
      RemoveFramed(d, t, l, k, cause, o);
      RemoveGoesOn(d, t, l, k, cause, o);
      RemoveStreams(d, t, l, k, cause, o);
      RemoveCalls(d, t, l, k, cause, o);
    } else {
      WalkKeeps(d, t, o);
    }
  }

  lemma FreeUplinkKeeps(d: Shared, t: nat, l: nat, k: nat, cause: Cause, last: bool, o: Outcome)
    requires SharedInv(d) && PcInv(d, t, FreeingUplink(l, k, cause, last))
    requires Named(Some(FreeingUplink(l, k, cause, last)), t, d.leases.settling, d.users.freeing)
    requires o == FreeUplinkSection(d, l, k, cause, last)
    ensures Keeps(d, o, t)
  {
    FreeUplinkKeys(d, l, k, cause, last, o);
    FreeUplinkMoves(d, t, l, k, cause, last, o);
    FreeUplinkGoesOn(d, t, l, k, cause, last, o);
    FreeUplinkStreams(d, t, l, k, cause, last, o);
    FreeUplinkCalls(d, l, k, cause, last, o);
  }

  lemma StopKeeps(d: Shared, t: nat, l: nat, cause: Cause, o: Outcome)
    requires SharedInv(d) && Unnamed(d, t) && MayStop(d, l, cause) && o == StopSection(d, l, cause)
    ensures Keeps(d, o, t)
  {
    if Wins(d.c, l) {
      StopFramed(d, t, l, cause, o);
      StopStreams(d, t, l, cause, o);
      StopCalls(d, l, cause, o);
    } else {
      WalkKeeps(d, t, o);
    }
  }

  lemma TellKeeps(d: Shared, t: nat, l: nat, x: nat, cause: Cause, o: Outcome)
    requires SharedInv(d) && Unnamed(d, t) && PcInv(d, t, Telling(l, x, cause)) && o == TellSection(d, l, x, cause)
    ensures Keeps(d, o, t)
  {
    TellFramed(d, t, l, x, cause, o);
    TellCalls(d, l, x, cause, o);
  }

  lemma ClearKeeps(d: Shared, t: nat, l: nat, cause: Cause, o: Outcome)
    requires SharedInv(d) && Unnamed(d, t) && TearsDown(d, t, l, cause) && o == ClearSection(d, t, l)
    ensures Keeps(d, o, t)
  {
    if Current(d.c, l) {
      ClearFramed(d, t, l, cause, o);
      ClearStreams(d, t, l, o);
      ClearCalls(d, t, l, cause, o);
    } else {
      WalkKeeps(d, t, o);
    }
  }

  ghost predicate Standing(d: Shared, t: nat, pc: Pc) {
    SharedInv(d) && PcInv(d, t, pc) && Named(Some(pc), t, d.leases.settling, d.users.freeing)
  }

  predicate Walks(pc: Pc) {
    pc.Probing? || pc.Probed? || pc.JoinWaiting? || pc.Starting? || pc.StartedOk? || pc.Leaving?
  }

  lemma WalkAllowed(d: Shared, t: nat, pc: Pc, choice: nat, o: Outcome)
    requires PcInv(d, t, pc) && o == Section(d, t, pc, choice) && Walks(pc)
    ensures o.d == d && (o.next.Some? ==> PcInv(d, t, o.next.value)) && Plain(o.next)
  {
  }

  lemma WalkingKeeps(d: Shared, t: nat, pc: Pc, choice: nat, o: Outcome)
    requires Standing(d, t, pc) && o == Section(d, t, pc, choice) && Walks(pc)
    ensures Keeps(d, o, t)
  {
    WalkAllowed(d, t, pc, choice, o);
    WalkKeeps(d, t, o);
  }

  lemma AddingKeeps(d: Shared, t: nat, l: nat, k: nat, next: Option<Pc>, o: Outcome)
    requires SharedInv(d) && Unnamed(d, t) && Pending(d, t, l, k) && o == AddSection(d, l, k, next)
    requires next.None? || (next.value.Creating? && next.value.lease == l && Unattached(d, t, l))
    ensures Keeps(d, o, t)
  {
    if d.fans[l].closed { WalkKeeps(d, t, o); } else { AddKeeps(d, t, l, k, next, o); }
  }

  lemma AttachingKeeps(d: Shared, t: nat, l: nat, o: Outcome)
    requires SharedInv(d) && Unnamed(d, t) && PcInv(d, t, Attaching(l)) && o == AttachSection(d, l)
    ensures Keeps(d, o, t)
  {
    if Current(d.c, l) { AttachKeeps(d, t, l, o); } else { SessionKeeps(d, t, l, S.CloseCalled, o); }
  }

  lemma AcquiringKeeps(d: Shared, t: nat, pc: Pc, choice: nat, o: Outcome)
    requires Standing(d, t, pc) && o == Section(d, t, pc, choice)
    requires pc.Reserving? || pc.JoinAdding? || pc.Adding?
    ensures Keeps(d, o, t)
  {
    match pc
    case Reserving(ep, mode, ringing, answered) => ReserveKeeps(d, t, ep, mode, ringing, answered, o);
    case JoinAdding(l, k) => AddingKeeps(d, t, l, k, None, o);
    case Adding(l, k, preview) => AddingKeeps(d, t, l, k, Some(Creating(l, preview)), o);
  }

  lemma CreatingKeeps(d: Shared, t: nat, l: nat, preview: bool, choice: nat, o: Outcome)
    requires SharedInv(d) && Unnamed(d, t) && Unattached(d, t, l) && o == CreateSection(d, l, preview, choice)
    ensures Keeps(d, o, t)
  {
    if choice == 0 { WalkKeeps(d, t, o); } else { CreateKeeps(d, t, l, preview, choice, o); }
  }

  lemma StartingKeeps(d: Shared, t: nat, pc: Pc, choice: nat, o: Outcome)
    requires Standing(d, t, pc) && o == Section(d, t, pc, choice)
    requires pc.Creating? || pc.Attaching? || pc.FinishingStart? || pc.SettlingStart?
    ensures Keeps(d, o, t)
  {
    match pc
    case Creating(l, preview) => CreatingKeeps(d, t, l, preview, choice, o);
    case Attaching(l) => AttachingKeeps(d, t, l, o);
    case FinishingStart(l, answered) => FinishStartKeeps(d, t, l, answered, o);
    case SettlingStart(l) => SettleStartKeeps(d, t, l, o);
  }

  lemma RemovingKeeps(d: Shared, t: nat, l: nat, k: nat, cause: Cause, choice: nat, o: Outcome)
    requires Standing(d, t, Removing(l, k, cause)) && o == Section(d, t, Removing(l, k, cause), choice)
    ensures Keeps(d, o, t)
  {
    RemoveKeeps(d, t, l, k, cause, o);
  }

  lemma FreeingKeeps(d: Shared, t: nat, l: nat, k: nat, cause: Cause, last: bool, choice: nat, o: Outcome)
    requires Standing(d, t, FreeingUplink(l, k, cause, last)) && o == Section(d, t, FreeingUplink(l, k, cause, last), choice)
    ensures Keeps(d, o, t)
  {
    FreeUplinkKeeps(d, t, l, k, cause, last, o);
  }

  lemma StoppingKeeps(d: Shared, t: nat, l: nat, cause: Cause, choice: nat, o: Outcome)
    requires Standing(d, t, Stopping(l, cause)) && o == Section(d, t, Stopping(l, cause), choice)
    ensures Keeps(d, o, t)
  {
    StopKeeps(d, t, l, cause, o);
  }

  lemma LeavingKeeps(d: Shared, t: nat, pc: Pc, choice: nat, o: Outcome)
    requires Standing(d, t, pc) && o == Section(d, t, pc, choice)
    requires pc.Removing? || pc.FreeingUplink? || pc.Stopping?
    ensures Keeps(d, o, t)
  {
    match pc
    case Removing(l, k, cause) => RemovingKeeps(d, t, l, k, cause, choice, o);
    case FreeingUplink(l, k, cause, last) => FreeingKeeps(d, t, l, k, cause, last, choice, o);
    case Stopping(l, cause) => StoppingKeeps(d, t, l, cause, choice, o);
  }

  lemma ClosingKeeps(d: Shared, t: nat, l: nat, x: nat, cause: Cause, o: Outcome)
    requires SharedInv(d) && Unnamed(d, t) && TearsDown(d, t, l, cause)
    requires o == Outcome(d.(sessions := SessionStep(d.sessions, x, S.CloseCalled)), Some(Clearing(l, cause)))
    ensures Keeps(d, o, t)
  {
    SessionKeeps(d, t, x, S.CloseCalled, o);
  }

  lemma SettlingKeeps(d: Shared, t: nat, l: nat, o: Outcome)
    requires SharedInv(d) && Named(Some(SettlingStop(l)), t, d.leases.settling, d.users.freeing) && l in d.fans
    requires o == SettleStopSection(d, l)
    ensures Keeps(d, o, t)
  {
    SettleStopFramed(d, t, l, o);
    SettleStopKeeps(d, t, l, o);
  }

  lemma TellingKeeps(d: Shared, t: nat, l: nat, x: nat, cause: Cause, choice: nat, o: Outcome)
    requires Standing(d, t, Telling(l, x, cause)) && o == Section(d, t, Telling(l, x, cause), choice)
    ensures Keeps(d, o, t)
  {
    TellKeeps(d, t, l, x, cause, o);
  }

  lemma ClosedKeeps(d: Shared, t: nat, l: nat, x: nat, cause: Cause, choice: nat, o: Outcome)
    requires Standing(d, t, Closing(l, x, cause)) && o == Section(d, t, Closing(l, x, cause), choice)
    ensures Keeps(d, o, t)
  {
    ClosingKeeps(d, t, l, x, cause, o);
  }

  lemma ClearingKeeps(d: Shared, t: nat, l: nat, cause: Cause, choice: nat, o: Outcome)
    requires Standing(d, t, Clearing(l, cause)) && o == Section(d, t, Clearing(l, cause), choice)
    ensures Keeps(d, o, t)
  {
    ClearKeeps(d, t, l, cause, o);
  }

  lemma SettledKeeps(d: Shared, t: nat, l: nat, choice: nat, o: Outcome)
    requires Standing(d, t, SettlingStop(l)) && o == Section(d, t, SettlingStop(l), choice)
    ensures Keeps(d, o, t)
  {
    SettlingKeeps(d, t, l, o);
  }

  lemma TearingKeeps(d: Shared, t: nat, pc: Pc, choice: nat, o: Outcome)
    requires Standing(d, t, pc) && o == Section(d, t, pc, choice)
    requires pc.Telling? || pc.Closing? || pc.Clearing? || pc.SettlingStop?
    ensures Keeps(d, o, t)
  {
    match pc
    case Telling(l, x, cause) => TellingKeeps(d, t, l, x, cause, choice, o);
    case Closing(l, x, cause) => ClosedKeeps(d, t, l, x, cause, choice, o);
    case Clearing(l, cause) => ClearingKeeps(d, t, l, cause, choice, o);
    case SettlingStop(l) => SettledKeeps(d, t, l, choice, o);
  }

  lemma SectionKeeps(d: Shared, t: nat, pc: Pc, choice: nat)
    requires Standing(d, t, pc)
    ensures Keeps(d, Section(d, t, pc, choice), t)
  {
    var o := Section(d, t, pc, choice);
    if Walks(pc) {
      WalkingKeeps(d, t, pc, choice, o);
    } else if pc.Telling? || pc.Closing? || pc.Clearing? || pc.SettlingStop? {
      TearingKeeps(d, t, pc, choice, o);
    } else if pc.Removing? || pc.FreeingUplink? || pc.Stopping? {
      LeavingKeeps(d, t, pc, choice, o);
    } else if pc.Reserving? || pc.JoinAdding? || pc.Adding? {
      AcquiringKeeps(d, t, pc, choice, o);
    } else {
      StartingKeeps(d, t, pc, choice, o);
    }
  }

  lemma SpeakKeeps(d: Shared, t: nat, k: nat, onStream: bool, e: Shared)
    requires SharedInv(d) && Unnamed(d, t) && k in d.users.leaseOf && onStream == OnStream(d.fans, d.users, k)
    requires e == SpeakSection(d, k, d.users.leaseOf[k], onStream)
    ensures Keeps(d, Outcome(e, None), t)
  {
    SpeakFramed(d, t, k, onStream, e);
    SpeakStreams(d, k, onStream, e);
    SpeakCalls(d, k, onStream, e);
  }

  lemma TrackKeeps(d: Shared, t: nat, video: bool)
    requires SharedInv(d) && Unnamed(d, t)
    ensures Keeps(d, Outcome(TrackSection(d, video), None), t)
  {
    TrackFramed(d, t, video);
    TrackStreams(d, video);
    TrackCalls(d, video);
  }

  predicate Spawns(d: Shared, action: Action) {
    || action.Acquire? || action.LetGo? || action.RingEnds? || action.CallEnds? || action.Fails? || action.Run?
    || (action.StopFrame? && ControlStops(d.c))
  }

  lemma SpawnAllowed(d: Shared, t: nat, action: Action, o: Outcome)
    requires KeyInv(d) && WinInv(d.c, d.leases) && o == Environment(d, action) && Spawns(d, action)
    ensures o.d == d && (o.next.Some? ==> PcInv(d, t, o.next.value)) && Plain(o.next)
  {
  }

  lemma SpawningKeeps(d: Shared, t: nat, action: Action, o: Outcome)
    requires SharedInv(d) && Unnamed(d, t) && o == Environment(d, action) && Spawns(d, action)
    ensures Keeps(d, o, t)
  {
    SpawnAllowed(d, t, action, o);
    WalkKeeps(d, t, o);
  }

  lemma EventKeeps(d: Shared, t: nat, action: Action, o: Outcome)
    requires SharedInv(d) && Unnamed(d, t) && o == Environment(d, action)
    requires action.Manage? || action.TakeEvent? || action.DeliverEvent?
    ensures Keeps(d, o, t)
  {
    if action.DeliverEvent? { DeliverKeeps(d, t, o.d); }
    else if o.d == d { WalkKeeps(d, t, o); }
    else if action.Manage? { ManageKeeps(d, t, action.op, o.d); }
    else { TakeKeeps(d, t); }
  }

  lemma MediaKeeps(d: Shared, t: nat, action: Action, o: Outcome)
    requires SharedInv(d) && Unnamed(d, t) && o == Environment(d, action)
    requires action.Speaks? || action.Session?
    ensures Keeps(d, o, t)
  {
    if o.d == d { WalkKeeps(d, t, o); }
    else if action.Speaks? {
      SpeakKeeps(d, t, action.consumer, OnStream(d.fans, d.users, action.consumer), o.d);
    }
    else { SessionKeeps(d, t, action.source, action.action, o); }
  }

  lemma EnvironmentKeeps(d: Shared, t: nat, action: Action, o: Outcome)
    requires SharedInv(d) && Unnamed(d, t) && o == Environment(d, action)
    ensures Keeps(d, o, t)
  {
    if Spawns(d, action) { SpawningKeeps(d, t, action, o); }
    else if action.Speaks? || action.Session? { MediaKeeps(d, t, action, o); }
    else if action.TrackFrame? { TrackKeeps(d, t, action.video); }
    else if action.StopFrame? { ObserveStopKeeps(d, t); }
    else { EventKeeps(d, t, action, o); }
  }

  lemma GoesKeepsInv(s: Sys, t: nat, o: Outcome)
    requires Inv(s) && t <= s.nextThread && Keeps(s.d, o, t)
    ensures Inv(Goes(s, t, o))
  {
    PcsStay(s.d, o.d, t, s.threads, s.nextThread, o.next);
    NamesStay(s.threads, t, o.next, s.d.leases, o.d.leases, s.d.users, o.d.users);
  }

  lemma NamesKnown(s: Sys, t: nat)
    requires ThreadInv(s) && t <= s.nextThread
    ensures t in s.threads ==> Named(Some(s.threads[t]), t, s.d.leases.settling, s.d.users.freeing)
    ensures t !in s.threads ==> Unnamed(s.d, t)
  {
    forall l <- s.d.leases.settling | s.d.leases.settling[l] == t
      ensures t in s.threads && s.threads[t] == SettlingStop(l)
    {
      assert Holds(s.threads, s.d.leases.settling[l], SettlingStop(l));
    }
    forall k <- s.d.users.freeing | s.d.users.freeing[k] == t
      ensures t in s.threads && s.threads[t].FreeingUplink? && s.threads[t].consumer == k
    {
      assert IsFreeing(s.threads, s.d.users.freeing[k], k);
    }
  }

  lemma StepKeepsInv(s: Sys, action: Action)
    requires Inv(s)
    ensures Inv(Step(s, action))
  {
    if action.Run? {
      var t := action.thread;
      if t in s.threads {
        NamesKnown(s, t);
        SectionKeeps(s.d, t, s.threads[t], action.choice);
        GoesKeepsInv(s, t, Section(s.d, t, s.threads[t], action.choice));
      }
    } else {
      var o := Environment(s.d, action);
      NamesKnown(s, s.nextThread);
      EnvironmentKeeps(s.d, s.nextThread, action, o);
      GoesKeepsInv(s, s.nextThread, o);
    }
  }

  lemma {:induction false} ReachInv(actions: seq<Action>)
    ensures Inv(Reach(actions))
  {
    if actions != [] {
      ReachInv(actions[..|actions| - 1]);
      StepKeepsInv(Reach(actions[..|actions| - 1]), actions[|actions| - 1]);
    }
  }
}
