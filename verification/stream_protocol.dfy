/** Every interleaving of the stream coordinator with its consumers, its sources and the manager.

    A goroutine is a program counter between two locked sections.  Consumers acquire, join, speak
    and let go; sources start, stall, fail and close; the manager commits calls and its drain
    delivers them; control frames arrive from the bus.  `Step` runs one section of one goroutine, or
    one section of the environment that may start a goroutine, and leaves the state alone when its
    action is not enabled.  A fan-out, a startup channel, a source and its session go by the lease
    they were made for. */
module StreamProtocol {
  import opened Prelude
  import E = CoreState
  import M = SignalingManager
  import S = SourceSession
  import opened C = StreamCoordinator

  datatype Fan = Fan(consumers: set<nat>, closed: bool)

  datatype Startup = Open | Done(ok: bool)

  datatype Pc =
    | Probing(entrypoint: string, mode: Mode)
    | Probed(entrypoint: string, mode: Mode, ringing: bool)
    | Reserving(entrypoint: string, mode: Mode, ringing: bool, answered: bool)
    | JoinWaiting(lease: nat, consumer: nat)
    | JoinAdding(lease: nat, consumer: nat)
    | Adding(lease: nat, consumer: nat, preview: bool)
    | Creating(lease: nat, preview: bool)
    | Attaching(lease: nat)
    | Starting(lease: nat)
    | StartedOk(lease: nat)
    | FinishingStart(lease: nat, answered: bool)
    | SettlingStart(lease: nat)
    | Leaving(lease: nat, consumer: nat, cause: Cause)
    | Removing(lease: nat, consumer: nat, cause: Cause)
    | FreeingUplink(lease: nat, consumer: nat, cause: Cause, last: bool)
    | Stopping(lease: nat, cause: Cause)
    | Telling(lease: nat, source: nat, cause: Cause)      // EndCallOnClose comes first
    | Closing(lease: nat, source: nat, cause: Cause)
    | Clearing(lease: nat, cause: Cause)
    | SettlingStop(lease: nat)

  /** What an acquire asked for, and what its probes of the calls answered. */
  datatype Ask = Ask(entrypoint: string, mode: Mode, ringing: bool, answered: bool)

  /** What became of each consumer: what it asked for, the lease it was issued for, the goroutine
      acquiring it, whether it was ever added, the goroutine whose leave lies between its removal and its giving up the
      uplink, whether a packet of its was let through. */
  datatype Consumers = Consumers(
    asked: map<nat, Ask>,
    leaseOf: map<nat, nat>,
    acquirer: map<nat, nat>,
    joined: set<nat>,
    freeing: map<nat, nat>,
    admitted: set<nat>)

  /** What became of each lease: its first consumer, the goroutine starting it, the one that cleared it and is about to
      finish its startup, whether it was born a preview, its promotions, the stops won and their
      cause, whether its last consumer left through Release, whether a start frame was seen during
      its startup. */
  datatype Leases = Leases(
    first: map<nat, nat>,
    owner: map<nat, nat>,
    settling: map<nat, nat>,
    previews: set<nat>,
    promotions: multiset<nat>,
    wins: multiset<nat>,
    winner: map<nat, Cause>,
    released: set<nat>,
    startFrames: set<nat>)

  /** What the goroutines share, with its history: `late` are the sources attached while their lease
      was being torn down, `askedBy` the lease whose teardown asked a source to end its call. */
  datatype Shared = Shared(
    c: State,
    m: M.State,
    inflight: Option<E.Event>,
    fans: map<nat, Fan>,
    starts: map<nat, Startup>,
    sessions: map<nat, S.Sys>,
    users: Consumers,
    leases: Leases,
    late: set<nat>,
    askedBy: map<nat, nat>)

  datatype Sys = Sys(d: Shared, threads: map<nat, Pc>, nextThread: nat)

  /** The outcome of a section: the shared state, and where its goroutine goes on, if it does. */
  datatype Outcome = Outcome(d: Shared, next: Option<Pc>)

  const NOBODY := Consumers(map[], map[], map[], {}, map[], {})
  const NOTHING := Leases(map[], map[], map[], {}, multiset{}, multiset{}, map[], {}, {})
  const START := Sys(Shared(C.INITIAL, M.INITIAL, None, map[], map[], map[], NOBODY, NOTHING, {}, map[]), map[], 0)

  datatype Action =
    | Acquire(entrypoint: string, mode: Mode)
    | LetGo(consumer: nat, release: bool)
    | Speaks(consumer: nat)
    | Manage(op: M.Op)
    | TakeEvent
    | DeliverEvent
    | RingEnds                            // StopRinging
    | CallEnds                            // EndCall
    | Fails(lease: nat, cause: Cause)     // remote BYE, stall or source failure
    | TrackFrame(video: bool)
    | StopFrame
    | Session(source: nat, action: S.Action)
    | Run(thread: nat, choice: nat)

  // ----- Sections -----

  function If(condition: bool, x: nat): set<nat> {
    if condition then {x} else {}
  }

  function Once(condition: bool, x: nat): multiset<nat> {
    if condition then multiset{x} else multiset{}
  }

  predicate OnStream(fans: map<nat, Fan>, h: Consumers, k: nat) {
    k in h.leaseOf && h.leaseOf[k] in fans && k in fans[h.leaseOf[k]].consumers
  }

  function ClosedFans(fans: map<nat, Fan>, l: nat): map<nat, Fan> {
    if l in fans then fans[l := fans[l].(closed := true)] else fans
  }

  function WithConsumer(fans: map<nat, Fan>, l: nat, k: nat): map<nat, Fan>
    requires l in fans
  {
    fans[l := fans[l].(consumers := fans[l].consumers + {k})]
  }

  /** Removing the last consumer closes the fan-out. */
  function WithoutConsumer(f: Fan, k: nat): Fan {
    var rest := f.consumers - {k};
    Fan(rest, f.closed || rest == {})
  }

  function SessionStep(sessions: map<nat, S.Sys>, x: nat, action: S.Action): map<nat, S.Sys> {
    if x in sessions then sessions[x := S.Step(sessions[x], action)] else sessions
  }

  function Issued(h: Consumers, k: nat, l: nat, t: nat, ask: Ask): Consumers {
    h.(asked := h.asked[k := ask], leaseOf := h.leaseOf[k := l], acquirer := h.acquirer[k := t])
  }

  function ReserveSection(d: Shared, t: nat, ep: string, mode: Mode, ringing: bool, answered: bool): Outcome {
    var c, ask := Reserve(d.c, ep, mode, ringing, answered), Ask(ep, mode, ringing, answered);
    match Decide(d.c, ep, mode, ringing, answered)
    case Refused(_) => Outcome(d, None)
    case Join(l, k) => Outcome(d.(c := c, users := Issued(d.users, k, l, t, ask)), Some(JoinWaiting(l, k)))
    case New(l, k, preview) =>
      var leases := d.leases.(first := d.leases.first[l := k], owner := d.leases.owner[l := t],
                              previews := d.leases.previews + If(preview, l));
      Outcome(d.(c := c, fans := d.fans[l := Fan({}, false)], starts := d.starts[l := Open],
                 users := Issued(d.users, k, l, t, ask), leases := leases),
              Some(Adding(l, k, preview)))
  }

  function AddSection(d: Shared, l: nat, k: nat, next: Option<Pc>): Outcome {
    if l !in d.fans || d.fans[l].closed then Outcome(d, None)
    else Outcome(d.(fans := WithConsumer(d.fans, l, k), users := d.users.(joined := d.users.joined + {k})), next)
  }

  /** The factory makes no source, one that cannot serve a preview, or a good one. */
  function CreateSection(d: Shared, l: nat, preview: bool, choice: nat): Outcome {
    var made := d.sessions[l := S.START];
    if choice == 0 then Outcome(d, Some(Clearing(l, SourceCreation)))
    else if choice == 1 then Outcome(d.(sessions := made), Some(Closing(l, l, SourceCreation)))
    else
      Outcome(d.(sessions := if preview then SessionStep(made, l, S.PrepareCalled) else made), Some(Attaching(l)))
  }

  function AttachSection(d: Shared, l: nat): Outcome {
    if Current(d.c, l) then
      Outcome(d.(c := Attach(d.c, l), late := d.late + If(d.c.stopping, l)), Some(Starting(l)))
    else Outcome(d.(sessions := SessionStep(d.sessions, l, S.CloseCalled)), None)
  }

  function FinishStartSection(d: Shared, l: nat, answered: bool): Outcome {
    var promotions := d.leases.promotions + Once(PromotesAtFinish(d.c, l, answered), l);
    Outcome(d.(c := FinishStart(d.c, l, answered), leases := d.leases.(promotions := promotions)),
            if Current(d.c, l) then Some(SettlingStart(l)) else None)
  }

  /** Finishing a startup twice is finishing it once. */
  function Settled(starts: map<nat, Startup>, l: nat, ok: bool): map<nat, Startup> {
    if l in starts && starts[l].Done? then starts else starts[l := Done(ok)]
  }

  function RemoveSection(d: Shared, t: nat, l: nat, k: nat, cause: Cause): Outcome {
    if l !in d.fans || k !in d.fans[l].consumers then Outcome(d, None)
    else
      var f := WithoutConsumer(d.fans[l], k);
      var last := f.consumers == {};
      Outcome(d.(fans := d.fans[l := f], users := d.users.(freeing := d.users.freeing[k := t]),
                 leases := d.leases.(released := d.leases.released + If(last && EndsCall(cause), l))),
              Some(FreeingUplink(l, k, cause, last)))
  }

  function FreeUplinkSection(d: Shared, l: nat, k: nat, cause: Cause, last: bool): Outcome {
    Outcome(d.(c := FreeUplink(d.c, l, k), users := d.users.(freeing := d.users.freeing - {k})),
            if last then Some(Stopping(l, cause)) else None)
  }

  function StopSection(d: Shared, l: nat, cause: Cause): Outcome {
    if !Wins(d.c, l) then Outcome(d, None)
    else
      var leases := d.leases.(wins := d.leases.wins + multiset{l}, winner := d.leases.winner[l := cause]);
      Outcome(d.(c := Stop(d.c, l), fans := ClosedFans(d.fans, l), leases := leases),
              if d.c.source.None? then Some(Clearing(l, cause))
              else if EndsCall(cause) then Some(Telling(l, d.c.source.value, cause))
              else Some(Closing(l, d.c.source.value, cause)))
  }

  function TellSection(d: Shared, l: nat, x: nat, cause: Cause): Outcome {
    Outcome(d.(sessions := SessionStep(d.sessions, x, S.EndCallOnCloseCalled), askedBy := d.askedBy[x := l]),
            Some(Closing(l, x, cause)))
  }

  function ClearSection(d: Shared, t: nat, l: nat): Outcome {
    if !Current(d.c, l) then Outcome(d, None)
    else
      Outcome(d.(c := FinishStop(d.c, l), fans := ClosedFans(d.fans, l),
                 leases := d.leases.(settling := d.leases.settling[l := t])),
              Some(SettlingStop(l)))
  }

  function SettleStopSection(d: Shared, l: nat): Outcome {
    Outcome(d.(starts := Settled(d.starts, l, false), leases := d.leases.(settling := d.leases.settling - {l})), None)
  }

  function Section(d: Shared, t: nat, pc: Pc, choice: nat): Outcome {
    match pc
    case Probing(ep, mode) => Outcome(d, Some(Probed(ep, mode, M.HasRingingInboundCall(d.m))))
    case Probed(ep, mode, ringing) => Outcome(d, Some(Reserving(ep, mode, ringing, M.HasAnsweredInboundCall(d.m))))
    case Reserving(ep, mode, ringing, answered) => ReserveSection(d, t, ep, mode, ringing, answered)
    case JoinWaiting(l, k) =>
      if choice == 0 then Outcome(d, None)                        // its own startup budget is over
      else if l !in d.starts || d.starts[l].Open? then Outcome(d, Some(pc))
      else Outcome(d, if d.starts[l].ok then Some(JoinAdding(l, k)) else None)
    case JoinAdding(l, k) => AddSection(d, l, k, None)
    case Adding(l, k, preview) => AddSection(d, l, k, Some(Creating(l, preview)))
    case Creating(l, preview) => CreateSection(d, l, preview, choice)
    case Attaching(l) => AttachSection(d, l)
    case Starting(l) =>
      Outcome(d, Some(if choice == 0 then StartedOk(l)
                      else Stopping(l, if choice == 1 then StartupFailed else StartupTimedOut)))
    case StartedOk(l) => Outcome(d, Some(FinishingStart(l, M.HasAnsweredInboundCall(d.m))))
    case FinishingStart(l, answered) => FinishStartSection(d, l, answered)
    case SettlingStart(l) => Outcome(d.(starts := Settled(d.starts, l, true)), None)
    case Leaving(l, k, cause) => Outcome(d, if Current(d.c, l) then Some(Removing(l, k, cause)) else None)
    case Removing(l, k, cause) => RemoveSection(d, t, l, k, cause)
    case FreeingUplink(l, k, cause, last) => FreeUplinkSection(d, l, k, cause, last)
    case Stopping(l, cause) => StopSection(d, l, cause)
    case Telling(l, x, cause) => TellSection(d, l, x, cause)
    case Closing(l, x, cause) =>
      Outcome(d.(sessions := SessionStep(d.sessions, x, S.CloseCalled)), Some(Clearing(l, cause)))
    case Clearing(l, _) => ClearSection(d, t, l)
    case SettlingStop(l) => SettleStopSection(d, l)
  }

  /** CallAnswered promotes before it counts as delivered. */
  function DeliverSection(d: Shared): Shared {
    if d.inflight.Some? && d.inflight.value.CallAnswered? then
      var promotions := d.leases.promotions + Once(Promotable(d.c) && !d.c.starting, d.c.leaseID);
      d.(c := Promote(d.c), inflight := None, leases := d.leases.(promotions := promotions))
    else d.(inflight := None)
  }

  function SpeakSection(d: Shared, k: nat, l: nat, onStream: bool): Shared {
    d.(c := Speak(d.c, l, k, onStream),
       users := d.users.(admitted := d.users.admitted + If(Admits(d.c, l, k, onStream), k)))
  }

  function TrackSection(d: Shared, video: bool): Shared {
    var seen := If(d.c.leaseID != 0 && d.c.starting, d.c.leaseID);
    d.(c := ObserveTrack(d.c, video), leases := d.leases.(startFrames := d.leases.startFrames + seen))
  }

  /** What the environment does, and the goroutine it starts. */
  function Environment(d: Shared, action: Action): Outcome {
    match action
    case Acquire(ep, mode) => Outcome(d, Some(Probing(ep, mode)))
    case LetGo(k, release) =>
      if k !in d.users.leaseOf then Outcome(d, None)
      else Outcome(d, Some(Leaving(d.users.leaseOf[k], k, if release then ConsumerReleased else ConsumerLeft)))
    case Speaks(k) =>
      if k !in d.users.leaseOf then Outcome(d, None)
      else Outcome(SpeakSection(d, k, d.users.leaseOf[k], OnStream(d.fans, d.users, k)), None)
    case Manage(op) => Outcome(if M.Callable(d.m, op) then d.(m := M.Commit(d.m, op)) else d, None)
    case TakeEvent =>
      if d.inflight.Some? || d.m.pending == [] then Outcome(d, None)
      else Outcome(d.(m := M.Pop(d.m), inflight := Some(d.m.pending[0])), None)
    case DeliverEvent => Outcome(DeliverSection(d), None)
    case RingEnds =>
      Outcome(d, if d.c.leaseID != 0 && d.c.previewRinging then Some(Stopping(d.c.leaseID, RingingEnded)) else None)
    case CallEnds =>
      if d.c.leaseID == 0 then Outcome(d, None)
      else Outcome(d, Some(Stopping(d.c.leaseID, if d.c.previewRinging then RingingEnded else CallEnded)))
    case Fails(l, cause) =>
      Outcome(d, if l in d.fans && (cause.RemoteBye? || cause.TracksStalled? || cause.SourceFailure?)
                 then Some(Stopping(l, cause)) else None)
    case TrackFrame(video) => Outcome(TrackSection(d, video), None)
    case StopFrame =>
      if ControlStops(d.c) then Outcome(d, Some(Stopping(d.c.leaseID, ControlStop)))
      else Outcome(d.(c := ObserveStop(d.c)), None)
    case Session(x, a) =>
      Outcome(if a.EndCallOnCloseCalled? then d else d.(sessions := SessionStep(d.sessions, x, a)), None)
    case Run(_, _) => Outcome(d, None)
  }

  function After(threads: map<nat, Pc>, t: nat, next: Option<Pc>): map<nat, Pc> {
    if next.Some? then threads[t := next.value] else threads - {t}
  }

  function Goes(s: Sys, t: nat, o: Outcome): Sys {
    Sys(o.d, After(s.threads, t, o.next), if t == s.nextThread then t + 1 else s.nextThread)
  }

  function Step(s: Sys, action: Action): Sys {
    if action.Run? then
      var t := action.thread;
      if t in s.threads then Goes(s, t, Section(s.d, t, s.threads[t], action.choice)) else s
    else Goes(s, s.nextThread, Environment(s.d, action))
  }

  function Reach(actions: seq<Action>): Sys {
    if actions == [] then START else Step(Reach(actions[..|actions| - 1]), actions[|actions| - 1])
  }
}
