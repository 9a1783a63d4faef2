/** A viewer session's hold on the stream (internal/media/webrtc.go: registerSession,
    startOfferSource, setLease, closeSessionWith).

    The source starts while the session is already registered, so a close may come first; it then
    leaves behind how the lease is to be dropped.  Sessions are objects, found by a client-chosen
    id that may be registered again once its session is gone. */
module WebrtcSessions {
  import opened Prelude

  /** Release lets go of the stream, and ends the call when last out; Leave never ends it. */
  datatype Drop = Release | Leave

  datatype Session = Session(lease: Option<nat>, closed: bool, dropLease: Drop)

  const FRESH := Session(None, false, Release)

  /** Gives the session its lease, unless it was closed meanwhile. */
  function SetLease(s: Session, lease: nat): Session {
    if s.closed then s else s.(lease := Some(lease))
  }

  function CloseWith(s: Session, drop: Drop): Session {
    if s.closed then s else Session(None, true, drop)
  }

  class SessionObject {
    var lease: Option<nat>
    var closed: bool
    var dropLease: Drop

    ghost function View(): Session
      reads this
    {
      Session(lease, closed, dropLease)
    }

    constructor ()
      ensures View() == FRESH
    {
      lease, closed, dropLease := None, false, Release;
    }

    /** How the caller must drop the lease, when the session no longer takes it. */
    method TakeLease(acquired: nat) returns (drop: Option<Drop>)
      modifies this
      ensures View() == SetLease(old(View()), acquired)
      ensures drop == if old(closed) then Some(old(dropLease)) else None
    {
      if closed { return Some(dropLease); }
      lease := Some(acquired);
      drop := None;
    }

    /** The body of the close, run once per session. */
    method CloseOnce(drop: Drop) returns (held: Option<nat>)
      modifies this
      ensures View() == CloseWith(old(View()), drop)
      ensures held == if old(closed) then None else old(lease)
    {
      if closed { return None; }
      held := lease;
      lease, closed, dropLease := None, true, drop;
    }
  }

  /** An id that still names an open session is refused. */
  function Registered<T>(sessions: map<string, T>, id: string, session: T): map<string, T> {
    if id in sessions then sessions else sessions[id := session]
  }

  function Unregistered<T>(sessions: map<string, T>, id: string): map<string, T> {
    sessions - {id}
  }

  /** The open sessions by their client-chosen id. */
  class SessionTable {
    var sessions: map<string, SessionObject>

    constructor ()
      ensures sessions == map[]
    {
      sessions := map[];
    }

    method Register(id: string, session: SessionObject) returns (registered: bool)
      modifies this
      ensures registered <==> id !in old(sessions)
      ensures sessions == Registered(old(sessions), id, session)
    {
      if id in sessions { return false; }
      sessions := sessions[id := session];
      registered := true;
    }

    /** Takes the session out of the table before closing it; `held` is the lease its caller drops. */
    method CloseSessionWith(id: string, drop: Drop) returns (held: Option<nat>)
      modifies this, if id in sessions then {sessions[id]} else {}
      ensures sessions == Unregistered(old(sessions), id)
      ensures id in old(sessions) ==>
                var session := old(sessions[id]);
                && session.View() == CloseWith(old(sessions[id].View()), drop)
                && held == if old(sessions[id].closed) then None else old(sessions[id].lease)
      ensures id !in old(sessions) ==> held == None
    {
      if id !in sessions { return None; }
      var session := sessions[id];
      sessions := sessions - {id};
      held := session.CloseOnce(drop);
    }
  }

  // ----- One session -----

  /** The goroutine that starts the session's source. */
  datatype Start =
    | Starting
    | Started(lease: nat)                // about to give the session its lease
    | LateDrop(lease: nat, drop: Drop)   // the session was closed first
    | Over

  datatype Dropped = Dropped(lease: nat, drop: Drop)

  /** `taken` is the lease a close took out of the session and has still to drop, `acquired` the lease
      the start was given, and `drops` the drops the coordinator has seen. */
  datatype Life = Life(
    session: Session,
    start: Start,
    taken: Option<Dropped>,
    acquired: Option<nat>,
    drops: seq<Dropped>)

  const BORN := Life(FRESH, Starting, None, None, [])

  datatype Event =
    | Acquire(lease: nat)
    | StartFails
    | StartGoesOn
    | CloseRuns(drop: Drop)
    | CloseDrops

  function Next(l: Life, e: Event): Life {
    match e
    case Acquire(lease) => if l.start.Starting? then l.(start := Started(lease), acquired := Some(lease)) else l
    case StartFails => if l.start.Starting? then l.(start := Over) else l
    case StartGoesOn =>
      if l.start.Started? then
        if l.session.closed then l.(start := LateDrop(l.start.lease, l.session.dropLease))
        else l.(session := SetLease(l.session, l.start.lease), start := Over)
      else if l.start.LateDrop? then
        l.(drops := l.drops + [Dropped(l.start.lease, l.start.drop)], start := Over)
      else l
    case CloseRuns(drop) =>
      if l.session.closed then l
      else
        l.(session := CloseWith(l.session, drop),
           taken := if l.session.lease.Some? then Some(Dropped(l.session.lease.value, drop)) else None)
    case CloseDrops =>
      if l.taken.None? then l else l.(taken := None, drops := l.drops + [l.taken.value])
  }

  /** The places a lease can be in, as the drops it is bound for; a held one is bound for none yet. */
  function Bound(l: Life): seq<Dropped> {
    (if l.start.LateDrop? then [Dropped(l.start.lease, l.start.drop)] else []) + Opt(l.taken) + l.drops
  }

  predicate Holding(l: Life) {
    l.session.lease.Some? || l.start.Started?
  }

  /** An acquired lease is held, or bound for exactly one drop, of the kind the close chose. */
  ghost predicate Kept(l: Life) {
    && (l.acquired.None? ==> !Holding(l) && Bound(l) == [])
    && (l.acquired.Some? ==> !l.start.Starting?)
    && (l.session.lease.Some? ==> l.session.lease == l.acquired && !l.session.closed && l.start.Over?)
    && (l.start.Started? ==> Some(l.start.lease) == l.acquired)
    && (l.acquired.Some? ==>
          if Holding(l) then Bound(l) == []
          else l.session.closed && Bound(l) == [Dropped(l.acquired.value, l.session.dropLease)])
  }

  lemma NextKeeps(l: Life, e: Event)
    requires Kept(l)
    ensures Kept(Next(l, e))
  {
  }

  // ----- The service -----

  /** `sessions` finds the open session of an id; `lives` holds every session there ever was. */
  datatype Service = Service(sessions: map<string, nat>, lives: map<nat, Life>, nextObj: nat)

  datatype Action =
    | Register(id: string)
    | Close(id: string, drop: Drop)
    | Happens(obj: nat, event: Event)

  /** A close by id reaches whatever session the id names now, and takes it out of the map. */
  function Step(y: Service, action: Action): Service {
    match action
    case Register(id) =>
      if id in y.sessions then y
      else Service(Registered(y.sessions, id, y.nextObj), y.lives[y.nextObj := BORN], y.nextObj + 1)
    case Close(id, drop) =>
      if id !in y.sessions || y.sessions[id] !in y.lives then y
      else
        var obj := y.sessions[id];
        y.(sessions := Unregistered(y.sessions, id), lives := y.lives[obj := Next(y.lives[obj], CloseRuns(drop))])
    case Happens(obj, e) =>
      if obj !in y.lives || e.CloseRuns? then y else y.(lives := y.lives[obj := Next(y.lives[obj], e)])
  }

  function Reach(actions: seq<Action>): Service {
    if actions == [] then Service(map[], map[], 0)
    else Step(Reach(actions[..|actions| - 1]), actions[|actions| - 1])
  }

  ghost predicate Inv(y: Service) {
    && (forall obj <- y.lives :: obj < y.nextObj && Kept(y.lives[obj]))
    && (forall id <- y.sessions :: y.sessions[id] in y.lives && !y.lives[y.sessions[id]].session.closed)
    && (forall a, b | a in y.sessions && b in y.sessions && a != b :: y.sessions[a] != y.sessions[b])
    // A session out of the map was closed.
    && (forall obj <- y.lives | !y.lives[obj].session.closed :: Findable(y, obj))
  }

  ghost predicate Findable(y: Service, obj: nat) {
    exists id :: id in y.sessions && y.sessions[id] == obj
  }

  lemma RegisterKeepsInv(y: Service, id: string)
    requires Inv(y) && id !in y.sessions
    ensures Inv(Step(y, Register(id)))
  {
    var n := Step(y, Register(id));
    forall obj <- n.lives | !n.lives[obj].session.closed
      ensures Findable(n, obj)
    {
      if obj in y.lives {
        var i :| i in y.sessions && y.sessions[i] == obj;
        assert n.sessions[i] == obj;
      } else {
        assert n.sessions[id] == obj;
      }
    }
  }

  lemma CloseKeepsInv(y: Service, id: string, drop: Drop)
    requires Inv(y) && id in y.sessions
    ensures Inv(Step(y, Close(id, drop)))
  {
    var n := Step(y, Close(id, drop));
    NextKeeps(y.lives[y.sessions[id]], CloseRuns(drop));
    forall obj <- n.lives | !n.lives[obj].session.closed
      ensures Findable(n, obj)
    {
      var i :| i in y.sessions && y.sessions[i] == obj;
      assert n.sessions[i] == obj;
    }
  }

  lemma HappensKeepsInv(y: Service, obj: nat, e: Event)
    requires Inv(y) && obj in y.lives && !e.CloseRuns?
    ensures Inv(Step(y, Happens(obj, e)))
  {
    var n := Step(y, Happens(obj, e));
    NextKeeps(y.lives[obj], e);
    assert n.lives[obj].session.closed == y.lives[obj].session.closed;
    forall o <- n.lives | !n.lives[o].session.closed
      ensures Findable(n, o)
    {
      assert !y.lives[o].session.closed;
    }
  }

  lemma StepKeepsInv(y: Service, action: Action)
    requires Inv(y)
    ensures Inv(Step(y, action))
  {
    match action
    case Register(id) => if id !in y.sessions { RegisterKeepsInv(y, id); }
    case Close(id, drop) => if id in y.sessions { CloseKeepsInv(y, id, drop); }
    case Happens(obj, e) => if obj in y.lives && !e.CloseRuns? { HappensKeepsInv(y, obj, e); }
  }

  lemma {:induction false} ReachInv(actions: seq<Action>)
    ensures Inv(Reach(actions))
  {
    if actions != [] {
      ReachInv(actions[..|actions| - 1]);
      StepKeepsInv(Reach(actions[..|actions| - 1]), actions[|actions| - 1]);
    }
  }

  /** In every interleaving of registrations, starts and closes, each lease a session acquires is still
      held by that session, or bound for exactly one drop, which is the Leave or the Release the
      session's own close chose, even when the close came before the lease. */
  lemma {:induction false} LeasesAreDroppedAsClosed(actions: seq<Action>, obj: nat)
    requires obj in Reach(actions).lives && Reach(actions).lives[obj].acquired.Some?
    ensures
      var l := Reach(actions).lives[obj];
      if Holding(l) then Bound(l) == []
      else l.session.closed && Bound(l) == [Dropped(l.acquired.value, l.session.dropLease)]
  {
    ReachInv(actions);
  }

  /** How the first close that reached a session wanted its lease dropped. */
  function ClosedAs(actions: seq<Action>, obj: nat): Option<Drop> {
    if actions == [] then None
    else
      var before, last := actions[..|actions| - 1], actions[|actions| - 1];
      if ClosedAs(before, obj).Some? then ClosedAs(before, obj)
      else if last.Close? && last.id in Reach(before).sessions && Reach(before).sessions[last.id] == obj then Some(last.drop)
      else None
  }

  lemma ClosesAs(y: Service, action: Action, obj: nat, closed: Option<Drop>, n: Service)
    requires Inv(y) && n == Step(y, action) && obj in n.lives
    requires obj in y.lives ==> (y.lives[obj].session.closed <==> closed.Some?)
    requires obj in y.lives && closed.Some? ==> y.lives[obj].session.dropLease == closed.value
    requires obj !in y.lives ==> closed.None?
    ensures n.lives[obj].session.closed <==>
              closed.Some? || (action.Close? && action.id in y.sessions && y.sessions[action.id] == obj)
    ensures n.lives[obj].session.closed ==>
              n.lives[obj].session.dropLease == if closed.Some? then closed.value else action.drop
  {
    match action
    case Happens(o, e) => if o == obj && obj in y.lives && !e.CloseRuns? { KeepsClosing(y.lives[obj], e); }
    case _ =>
  }

  lemma KeepsClosing(l: Life, e: Event)
    requires !e.CloseRuns?
    ensures Next(l, e).session.closed == l.session.closed && Next(l, e).session.dropLease == l.session.dropLease
  {
  }

  /** A session is closed exactly by a close of the id that names it, and the first one decides how its
      lease is dropped. */
  lemma {:induction false} FirstCloseDecides(actions: seq<Action>, obj: nat)
    ensures obj in Reach(actions).lives ==>
              var session := Reach(actions).lives[obj].session;
              && (session.closed <==> ClosedAs(actions, obj).Some?)
              && (session.closed ==> session.dropLease == ClosedAs(actions, obj).value)
    ensures obj !in Reach(actions).lives ==> ClosedAs(actions, obj).None?
  {
    if actions != [] {
      var before, last := actions[..|actions| - 1], actions[|actions| - 1];
      FirstCloseDecides(before, obj);
      ReachInv(before);
      if obj in Reach(actions).lives {
        ClosesAs(Reach(before), last, obj, ClosedAs(before, obj), Reach(actions));
      }
    }
  }

  /** Once its goroutines are done, a closed session's lease has been dropped once, as its close chose,
      and an open session still holds its own and can be found to be closed. */
  lemma {:induction false} NoLeaseLeftBehind(actions: seq<Action>, obj: nat)
    requires obj in Reach(actions).lives
    requires Reach(actions).lives[obj].start.Over? && Reach(actions).lives[obj].taken.None?
    ensures
      var y := Reach(actions);
      var l := y.lives[obj];
      && (l.session.closed && l.acquired.Some? ==> l.drops == [Dropped(l.acquired.value, l.session.dropLease)])
      && (!l.session.closed ==> l.drops == [] && l.session.lease == l.acquired
                                && Findable(y, obj))
  {
    ReachInv(actions);
    var l := Reach(actions).lives[obj];
    assert Bound(l) == l.drops;
  }
}
