/** The owner of the intercom's single media source (internal/media/stream_coordinator.go).

    Each method of `StreamCoordinator` is one section the program runs under the coordinator's lock.
    A lease, the fan-out and the startup channel created with it carry the same number. */
module StreamCoordinator {
  import opened Prelude

  datatype Owner = Idle | Companion | External

  datatype Mode = Mode(allowRinging: bool, shareable: bool)

  datatype Refusal = RingingCall | ExternalStream | StreamBusy

  datatype Reservation =
    | Refused(why: Refusal)
    | Join(lease: nat, consumer: nat)
    | New(lease: nat, consumer: nat, preview: bool)

  /** Why a lease is torn down.  Only a consumer letting go ends the call behind it. */
  datatype Cause =
    | ConsumerReleased | ConsumerLeft | RemoteBye | ControlStop | TracksStalled | SourceFailure
    | SourceCreation | StartupFailed | StartupTimedOut | RingingEnded | CallEnded

  predicate EndsCall(cause: Cause) {
    cause.ConsumerReleased?
  }

  datatype State = State(
    nextID: nat,
    leaseID: nat,
    controlLeaseID: nat,
    owner: Owner,
    entrypoint: string,
    videoRequested: bool,
    audioRequested: bool,
    source: Option<nat>,
    starting: bool,
    stopping: bool,
    previewRinging: bool,
    promotePending: bool,
    shared: bool,
    fanout: Option<nat>,
    start: Option<nat>,
    nextConsumer: nat,
    talker: nat)

  const INITIAL := State(0, 0, 0, Idle, "", false, false, None, false, false, false, false, false, None, None, 0, 0)

  predicate Current(c: State, lease: nat) {
    c.leaseID == lease && lease != 0
  }

  // ----- Reserving -----

  predicate Joinable(c: State, entrypoint: string, mode: Mode) {
    c.leaseID != 0 && mode.shareable && c.shared && !c.stopping && c.entrypoint == entrypoint
  }

  function Decide(c: State, entrypoint: string, mode: Mode, ringing: bool, answered: bool): Reservation {
    if ringing && !mode.allowRinging then Refused(RingingCall)
    else if c.owner.External? && !answered && !ringing then Refused(ExternalStream)
    else if Joinable(c, entrypoint, mode) then Join(c.leaseID, c.nextConsumer + 1)
    else if c.leaseID != 0 then Refused(StreamBusy)
    else New(c.nextID + 1, c.nextConsumer + 1, ringing)
  }

  function Reserve(c: State, entrypoint: string, mode: Mode, ringing: bool, answered: bool): State {
    match Decide(c, entrypoint, mode, ringing, answered)
    case Refused(_) => c
    case Join(_, consumer) => c.(nextConsumer := consumer)
    case New(lease, consumer, preview) =>
      State(lease, lease, 0, Companion, entrypoint, false, false, c.source, true, c.stopping, preview, false,
            mode.shareable, Some(lease), Some(lease), consumer, 0)
  }

  function Attach(c: State, lease: nat): State {
    if Current(c, lease) then c.(source := Some(lease)) else c
  }

  // ----- Promotion -----

  function TakePromotion(c: State): State {
    c.(previewRinging := false, promotePending := false, audioRequested := true)
  }

  predicate PromotesAtFinish(c: State, lease: nat, answered: bool) {
    Current(c, lease) && c.previewRinging && (c.promotePending || answered) && !c.stopping
  }

  function FinishStart(c: State, lease: nat, answered: bool): State {
    if !Current(c, lease) then c
    else if PromotesAtFinish(c, lease, answered) then TakePromotion(c.(starting := false))
    else c.(starting := false)
  }

  predicate Promotable(c: State) {
    c.leaseID != 0 && c.previewRinging && !c.stopping
  }

  function Promote(c: State): State {
    if !Promotable(c) then c else if c.starting then c.(promotePending := true) else TakePromotion(c)
  }

  // ----- The uplink -----

  /** Whether uplink audio of a lease can flow at all. */
  predicate UplinkOpen(c: State, lease: nat) {
    Current(c, lease) && !c.starting && !c.stopping && !c.previewRinging && c.source.Some?
  }

  /** The first consumer on the stream to speak owns the uplink; `onStream` says the fan-out has it. */
  function Speak(c: State, lease: nat, consumer: nat, onStream: bool): State {
    if UplinkOpen(c, lease) && c.talker == 0 && onStream then c.(talker := consumer) else c
  }

  predicate Admits(c: State, lease: nat, consumer: nat, onStream: bool) {
    UplinkOpen(c, lease) && Speak(c, lease, consumer, onStream).talker == consumer
  }

  function FreeUplink(c: State, lease: nat, consumer: nat): State {
    if Current(c, lease) && c.talker == consumer then c.(talker := 0) else c
  }

  // ----- Teardown -----

  predicate Wins(c: State, lease: nat) {
    Current(c, lease) && !c.stopping
  }

  function Stop(c: State, lease: nat): State {
    if Wins(c, lease) then c.(stopping := true, source := None) else c
  }

  function FinishStop(c: State, lease: nat): State {
    if !Current(c, lease) then c
    else
      State(c.nextID, 0, 0, Idle, "", false, false, c.source, false, false, false, false, false, None, None,
            c.nextConsumer, 0)
  }

  function ObserveTrack(c: State, video: bool): State {
    if c.leaseID != 0 && !c.starting then c
    else
      var c := if c.leaseID != 0 then c.(controlLeaseID := c.leaseID) else c;
      var c := if c.leaseID == 0 && c.owner.Idle? then c.(owner := External) else c;
      if video then c.(videoRequested := true) else c.(audioRequested := true)
  }

  /** A stop frame ends a lease only after startup, and only behind a start frame of that lease. */
  predicate ControlStops(c: State) {
    c.leaseID != 0 && c.controlLeaseID == c.leaseID && !c.starting
  }

  function ObserveStop(c: State): State {
    if c.leaseID == 0 && c.owner.External?
    then c.(owner := Idle, entrypoint := "", videoRequested := false, audioRequested := false) else c
  }

  /** What every section keeps. */
  ghost predicate Valid(c: State) {
    && c.leaseID <= c.nextID
    && (c.leaseID == 0 ==>
          && !c.starting && !c.stopping && !c.previewRinging && !c.promotePending && !c.shared
          && c.talker == 0 && c.fanout.None? && c.start.None? && c.controlLeaseID == 0)
    && (c.leaseID != 0 ==> c.fanout == Some(c.leaseID) && c.start == Some(c.leaseID))
    && (c.controlLeaseID == 0 || c.controlLeaseID == c.leaseID)
    && (c.owner.Companion? <==> c.leaseID != 0)
  }

  /** Every section keeps the coordinator consistent: a snapshot shows the companion as owner exactly
      while there is a lease, and an ended lease leaves nothing of itself behind. */
  lemma StartupKeepsValid(c: State, lease: nat, answered: bool)
    requires Valid(c)
    ensures Valid(Attach(c, lease)) && Valid(FinishStart(c, lease, answered))
  {
  }

  lemma PromoteKeepsValid(c: State)
    requires Valid(c)
    ensures Valid(Promote(c))
  {
  }

  lemma ReserveKeepsValid(c: State, entrypoint: string, mode: Mode, ringing: bool, answered: bool)
    requires Valid(c)
    ensures Valid(Reserve(c, entrypoint, mode, ringing, answered))
  {
  }

  lemma UplinkKeepsValid(c: State, lease: nat, consumer: nat, onStream: bool)
    requires Valid(c)
    ensures Valid(Speak(c, lease, consumer, onStream)) && Valid(FreeUplink(c, lease, consumer))
  {
  }

  lemma StopKeepsValid(c: State, lease: nat)
    requires Valid(c)
    ensures Valid(Stop(c, lease)) && Valid(FinishStop(c, lease))
  {
  }

  lemma ObserveKeepsValid(c: State, video: bool)
    requires Valid(c)
    ensures Valid(ObserveTrack(c, video)) && Valid(ObserveStop(c))
  {
  }

  class StreamCoordinator {
    var nextID: nat
    var leaseID: nat
    var controlLeaseID: nat
    var owner: Owner
    var entrypoint: string
    var videoRequested: bool
    var audioRequested: bool
    var source: Option<nat>
    var starting: bool
    var stopping: bool
    var previewRinging: bool
    var promotePending: bool
    var shared: bool
    var fanout: Option<nat>
    var start: Option<nat>
    var nextConsumer: nat
    var talker: nat

    ghost function View(): State
      reads this
    {
      State(nextID, leaseID, controlLeaseID, owner, entrypoint, videoRequested, audioRequested, source, starting,
            stopping, previewRinging, promotePending, shared, fanout, start, nextConsumer, talker)
    }

    constructor ()
      ensures View() == INITIAL && Valid(View())
    {
      nextID, leaseID, controlLeaseID, owner, entrypoint := 0, 0, 0, Idle, "";
      videoRequested, audioRequested, source := false, false, None;
      starting, stopping, previewRinging, promotePending, shared := false, false, false, false, false;
      fanout, start, nextConsumer, talker := None, None, 0, 0;
    }

    /** Replaces the snapshot by a fresh one. */
    method ResetSnapshot(o: Owner, ep: string)
      modifies this`owner, this`entrypoint, this`videoRequested, this`audioRequested
      ensures View() == old(View()).(owner := o, entrypoint := ep, videoRequested := false, audioRequested := false)
    {
      owner, entrypoint, videoRequested, audioRequested := o, ep, false, false;
    }

    /** The fields of a lease as it begins or ends. */
    method ResetLease(lease: nat, isNew: bool, ringing: bool, shareable: bool)
      modifies this`leaseID, this`controlLeaseID, this`starting, this`previewRinging, this`promotePending
      modifies this`shared, this`talker, this`fanout, this`start
      ensures leaseID == lease && controlLeaseID == 0 && shared == shareable && talker == 0
      ensures starting == isNew && previewRinging == ringing && !promotePending
      ensures fanout == start == if isNew then Some(lease) else None
    {
      leaseID, controlLeaseID := lease, 0;
      starting, previewRinging, promotePending := isNew, ringing, false;
      shared, talker := shareable, 0;
      fanout := if isNew then Some(lease) else None;
      start := fanout;
    }

    method ReserveStream(ep: string, mode: Mode, ringing: bool, answered: bool) returns (r: Reservation)
      requires Valid(View())
      modifies this
      ensures Valid(View()) && View() == Reserve(old(View()), ep, mode, ringing, answered)
      ensures r == Decide(old(View()), ep, mode, ringing, answered)
    {
      if ringing && !mode.allowRinging { return Refused(RingingCall); }
      var adopted := owner == External;
      if adopted && !answered && !ringing { return Refused(ExternalStream); }
      if leaseID != 0 && mode.shareable && shared && !stopping && entrypoint == ep {
        nextConsumer := nextConsumer + 1;
        return Join(leaseID, nextConsumer);
      }
      if leaseID != 0 { return Refused(StreamBusy); }
      nextID := nextID + 1;
      nextConsumer := nextConsumer + 1;
      ResetLease(nextID, true, ringing, mode.shareable);
      ResetSnapshot(Companion, ep);
      r := New(leaseID, nextConsumer, ringing);
    }

    method AttachSource(lease: nat) returns (attached: bool)
      requires Valid(View()) && lease != 0
      modifies this`source
      ensures Valid(View()) && View() == Attach(old(View()), lease)
      ensures attached <==> leaseID == lease
    {
      if leaseID != lease { return false; }
      source := Some(lease);
      attached := true;
    }

    /** Ends the preview phase; the caller asks the source for audio. */
    method TakePromotionLocked()
      modifies this`previewRinging, this`promotePending, this`audioRequested
      ensures View() == TakePromotion(old(View()))
    {
      previewRinging, promotePending := false, false;
      audioRequested := true;
    }

    method EndStartup(lease: nat, answered: bool) returns (settle: Option<nat>, promote: bool)
      requires Valid(View()) && lease != 0
      modifies this`starting, this`previewRinging, this`promotePending, this`audioRequested
      ensures Valid(View()) && View() == FinishStart(old(View()), lease, answered)
      ensures settle == if leaseID == lease then start else None
      ensures promote <==> PromotesAtFinish(old(View()), lease, answered)
    {
      if leaseID != lease { return None, false; }
      starting := false;
      settle, promote := start, false;
      if previewRinging && (promotePending || answered) && !stopping {
        TakePromotionLocked();
        promote := true;
      }
    }

    method PromoteRinging() returns (promote: bool)
      requires Valid(View())
      modifies this`previewRinging, this`promotePending, this`audioRequested
      ensures Valid(View()) && View() == Promote(old(View()))
      ensures promote <==> Promotable(old(View())) && !starting
    {
      if leaseID == 0 || !previewRinging || stopping { return false; }
      if starting {
        promotePending := true;
        return false;
      }
      TakePromotionLocked();
      promote := true;
    }

    method WriteBackchannel(lease: nat, consumer: nat, onStream: bool) returns (admitted: bool)
      requires Valid(View()) && lease != 0
      modifies this`talker
      ensures Valid(View()) && View() == Speak(old(View()), lease, consumer, onStream)
      ensures admitted <==> Admits(old(View()), lease, consumer, onStream)
    {
      if leaseID != lease || starting || stopping || previewRinging { return false; }
      if source.None? { return false; }
      if talker == 0 && fanout.Some? && onStream {
        talker := consumer;
      }
      admitted := talker == consumer;
    }

    /** The uplink frees up once its consumer is off the fan-out. */
    method ReleaseUplink(lease: nat, consumer: nat)
      requires Valid(View()) && lease != 0
      modifies this`talker
      ensures Valid(View()) && View() == FreeUplink(old(View()), lease, consumer)
    {
      if leaseID == lease && talker == consumer {
        talker := 0;
      }
    }

    /** The section of `stop`: the first to find the lease current wins the teardown. */
    method BeginStop(lease: nat) returns (won: bool, closing: Option<nat>)
      requires Valid(View()) && lease != 0
      modifies this`stopping, this`source
      ensures Valid(View()) && View() == Stop(old(View()), lease)
      ensures won <==> Wins(old(View()), lease)
      ensures closing == if won then old(source) else None
    {
      if leaseID != lease { return false, None; }
      if stopping { return false, None; }
      stopping := true;
      closing := source;
      source := None;
      won := true;
    }

    /** The last section of `finishStop`; `settle` is the startup channel to finish. */
    method EndStop(lease: nat) returns (settle: Option<nat>)
      requires Valid(View()) && lease != 0
      modifies this
      ensures Valid(View()) && View() == FinishStop(old(View()), lease)
      ensures settle == if old(leaseID) == lease then old(start) else None
    {
      settle := None;
      if leaseID == lease {
        settle := start;
        stopping := false;
        ResetLease(0, false, false, false);
        ResetSnapshot(Idle, "");
      }
    }

    method ObserveControlTrack(video: bool)
      requires Valid(View())
      modifies this
      ensures Valid(View()) && View() == ObserveTrack(old(View()), video)
    {
      if leaseID != 0 {
        if !starting { return; }
        controlLeaseID := leaseID;
      }
      if leaseID == 0 && owner == Idle {
        owner := External;
      }
      if video {
        videoRequested := true;
        return;
      }
      audioRequested := true;
    }

    /** `stop` is the lease a stop frame ends. */
    method ObserveControlStop() returns (stop: Option<nat>)
      requires Valid(View())
      modifies this
      ensures Valid(View()) && View() == ObserveStop(old(View()))
      ensures stop == if ControlStops(old(View())) then Some(leaseID) else None
    {
      if leaseID == 0 {
        if owner == External {
          ResetSnapshot(Idle, "");
        }
        return None;
      }
      if controlLeaseID != leaseID { return None; }
      if starting { return None; }
      stop := Some(leaseID);
    }
  }
}
