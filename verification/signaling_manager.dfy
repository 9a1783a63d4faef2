/** The owner of the single inbound and the single outbound SIP dialog
    (internal/signaling/manager.go).

    Every section the program runs with its mutex held is one method of `Manager`, and one
    operation `Op` of the specification.  An operation commits a new state (`Core`) together with
    at most one event (`EventOf`), and queues that event at the commit point (`Publish`). */
module SignalingManager {
  import opened Prelude
  import C = CoreState

  /** Dialogs are compared by identity, `obj`; `id` is the Call-ID of an inbound one. */
  datatype Dialog = Inbound(obj: nat, id: string) | Outbound(obj: nat)

  /** The expiry of a pending call: the timer object survives its own firing. */
  datatype Timer = Timer(dialog: Dialog, fired: bool)

  datatype State = State(
    pending: seq<C.Event>,
    draining: bool,
    incoming: Option<Dialog>,
    incomingDevAddr: string,
    incomingEntrypoint: string,
    incomingExpiry: Option<Timer>,
    active: Option<Dialog>,
    activeID: string,
    activeIncoming: bool,
    activeEntrypoint: string)

  const INITIAL := State([], false, None, "", "", None, None, "", false, "")

  datatype Op =
    | Invite(dialog: Dialog, entrypoint: string, devAddr: string)
    | AnswerCommit(dialog: Dialog, entrypoint: string)
    | Decline
    | Hangup
    | HangupCall
    | RemoteDialogEnded
    | ClearIncoming(expected: Option<Dialog>, reason: C.CallEndReason)
    | Dial(dialog: Dialog)
    | TimerFires

  function DialogId(d: Dialog): string {
    if d.Inbound? then d.id else ""
  }

  function WithoutIncoming(m: State): State {
    m.(incoming := None, incomingDevAddr := "", incomingEntrypoint := "", incomingExpiry := None)
  }

  function WithoutActive(m: State): State {
    m.(active := None, activeID := "", activeIncoming := false, activeEntrypoint := "")
  }

  predicate Takes(m: State, expected: Option<Dialog>) {
    m.incoming.Some? && (expected.Some? ==> m.incoming == expected)
  }

  function Core(m: State, op: Op): State {
    match op
    case Invite(d, ep, dev) =>
      if m.incoming.Some? || m.active.Some? || ep == "" then m
      else m.(incoming := Some(d), incomingDevAddr := dev, incomingEntrypoint := ep,
              incomingExpiry := Some(Timer(d, false)))
    case AnswerCommit(d, ep) =>
      if m.incoming != Some(d) then m
      else WithoutIncoming(m).(active := Some(d), activeID := DialogId(d), activeIncoming := true,
                               activeEntrypoint := ep)
    case Decline => WithoutIncoming(m)
    case Hangup => if m.active.Some? then WithoutActive(m) else WithoutIncoming(m)
    case HangupCall => WithoutActive(m)
    case RemoteDialogEnded => WithoutActive(m)
    case ClearIncoming(expected, _) => if Takes(m, expected) then WithoutIncoming(m) else m
    case Dial(d) =>
      if m.incoming.Some? || m.activeIncoming || m.active.Some? then m else m.(active := Some(d))
    case TimerFires =>
      if m.incomingExpiry.Some? then m.(incomingExpiry := Some(m.incomingExpiry.value.(fired := true))) else m
  }

  /** A call the active dialog belongs to, if the projector knows of one. */
  function HungUp(m: State): Option<C.Event> {
    if m.active.Some? && m.activeID != "" then Some(C.CallHungUp(m.activeID)) else None
  }

  function EventOf(m: State, op: Op): Option<C.Event> {
    match op
    case Invite(d, ep, _) =>
      if Core(m, op) != m then Some(C.IncomingCallStarted(DialogId(d), ep)) else None
    case AnswerCommit(d, _) => if m.incoming == Some(d) then Some(C.CallAnswered(DialogId(d))) else None
    case Decline => if m.incoming.Some? then Some(C.CallDeclined(DialogId(m.incoming.value))) else None
    case Hangup =>
      if m.active.Some? then HungUp(m)
      else if m.incoming.Some? then Some(C.CallHungUp(DialogId(m.incoming.value))) else None
    case HangupCall => HungUp(m)
    case RemoteDialogEnded => HungUp(m)
    case ClearIncoming(expected, reason) =>
      if Takes(m, expected) then Some(C.IncomingCallEnded(DialogId(m.incoming.value), reason)) else None
    case Dial(_) => None
    case TimerFires => None
  }

  /** Queues a committed event, and claims the drain when nobody holds it. */
  function Publish(m: State, e: Option<C.Event>): State {
    var queue := m.pending + Opt(e);
    m.(pending := queue, draining := m.draining || queue != [])
  }

  function Commit(m: State, op: Op): State {
    if EventOf(m, op).Some? then Publish(Core(m, op), EventOf(m, op)) else Core(m, op)
  }

  /** The locked section of the drain loop: the next event, or the drain handed back. */
  function Pop(m: State): State {
    if m.pending == [] then m.(draining := false) else m.(pending := m.pending[1..])
  }

  predicate HasAnsweredInboundCall(m: State) {
    m.active.Some? && m.activeIncoming
  }

  predicate HasRingingInboundCall(m: State) {
    m.incoming.Some?
  }

  datatype Adoption = Ringing | Answered | NoInboundCall

  function AdoptRingingCall(m: State, entrypoint: string): Adoption {
    if m.incoming.Some? && entrypoint == m.incomingEntrypoint then Ringing
    else if m.active.Some? && m.activeIncoming && entrypoint == m.activeEntrypoint then Answered
    else NoInboundCall
  }

  /** What every operation keeps: one dialog at most, and fields that describe that dialog. */
  ghost predicate Valid(m: State) {
    && (m.incoming.Some? ==> m.incoming.value.Inbound? && m.incoming.value.id != "" && m.incomingEntrypoint != "")
    && !(m.incoming.Some? && m.active.Some?)
    && (m.incoming.None? ==> m.incomingDevAddr == "" && m.incomingEntrypoint == "")
    && (m.active.None? ==> !m.activeIncoming && m.activeID == "" && m.activeEntrypoint == "")
    && (m.active.Some? ==> m.activeIncoming == m.active.value.Inbound? && m.activeID == DialogId(m.active.value))
    && (m.activeIncoming ==> m.activeID != "" && m.activeEntrypoint != "")
    && (m.incomingExpiry.Some? <==> m.incoming.Some?)
    && (m.incomingExpiry.Some? ==> m.incomingExpiry.value.dialog == m.incoming.value)
    && (m.pending != [] ==> m.draining)
  }

  /** What a caller of the manager owes it: fresh inbound dialogs carry a Call-ID, dialled ones are
      outbound, and an answer commits with the entrypoint it read beside the dialog. */
  predicate Callable(m: State, op: Op) {
    && (op.Invite? ==> op.dialog.Inbound? && op.dialog.id != "")
    && (op.Dial? ==> op.dialog.Outbound?)
    && (op.AnswerCommit? ==> m.incoming == Some(op.dialog) ==> op.entrypoint == m.incomingEntrypoint)
  }

  lemma CommitKeepsValid(m: State, op: Op)
    requires Valid(m) && Callable(m, op)
    ensures Valid(Commit(m, op)) && Valid(Pop(m))
    ensures Commit(m, op).pending == m.pending + Opt(EventOf(m, op))
    ensures Commit(m, op).draining == (m.draining || EventOf(m, op).Some?)
  {
  }

  /** The calls the manager knows of, as the projector should see them. */
  ghost predicate Agrees(c: C.Calls, m: State) {
    && c.incoming == (if m.incoming.Some? then Some(C.Call(DialogId(m.incoming.value), m.incomingEntrypoint)) else None)
    && c.active == (if m.activeIncoming then Some(C.Call(m.activeID, m.activeEntrypoint)) else None)
  }

  /** The refinement step: an operation and its event move the manager and the projected calls
      together, and the event is never an invalid transition. */
  lemma CommitAgrees(m: State, op: Op, c: C.Calls)
    requires Valid(m) && Callable(m, op) && Agrees(c, m)
    ensures EventOf(m, op).None? ==> Agrees(c, Commit(m, op))
    ensures EventOf(m, op).Some? ==>
              var next := C.CallsAfter(c, EventOf(m, op).value); next.Some? && Agrees(next.value, Commit(m, op))
  {
  }

  /** Only a commit that queues CallAnswered makes an inbound call answered. */
  lemma AnsweredOnlyByEvent(m: State, op: Op)
    requires Valid(m) && Callable(m, op)
    ensures HasAnsweredInboundCall(Commit(m, op)) && !HasAnsweredInboundCall(m) ==>
              Commit(m, op).pending == m.pending + [C.CallAnswered(Commit(m, op).activeID)]
    ensures m.pending <= Commit(m, op).pending
  {
  }

  class Manager {
    var pending: seq<C.Event>
    var draining: bool
    var incoming: Option<Dialog>
    var incomingDevAddr: string
    var incomingEntrypoint: string
    var incomingExpiry: Option<Timer>
    var active: Option<Dialog>
    var activeID: string
    var activeIncoming: bool
    var activeEntrypoint: string

    ghost function View(): State
      reads this
    {
      State(pending, draining, incoming, incomingDevAddr, incomingEntrypoint, incomingExpiry,
            active, activeID, activeIncoming, activeEntrypoint)
    }

    constructor ()
      ensures View() == INITIAL && Valid(View())
    {
      pending, draining := [], false;
      incoming, incomingDevAddr, incomingEntrypoint, incomingExpiry := None, "", "", None;
      active, activeID, activeIncoming, activeEntrypoint := None, "", false, "";
    }

    /** Queues an event, if there is one; `spawn` tells the caller to start the drain. */
    method PublishLocked(event: Option<C.Event>) returns (spawn: bool)
      modifies this
      ensures View() == Publish(old(View()), event)
      ensures spawn <==> !old(draining) && draining
    {
      if event.Some? {
        pending := pending + [event.value];
      }
      if draining || |pending| == 0 { return false; }
      draining := true;
      spawn := true;
    }

    method StopIncomingExpiryLocked()
      modifies this
      ensures View() == old(View()).(incomingExpiry := None)
    {
      if incomingExpiry.Some? {
        incomingExpiry := None;
      }
    }

    /** Detaches the pending dialog, provided it is still the expected one. */
    method TakeIncomingLocked(expected: Option<Dialog>) returns (dialog: Option<Dialog>)
      modifies this
      ensures Takes(old(View()), expected) ==> dialog == old(incoming) && View() == WithoutIncoming(old(View()))
      ensures !Takes(old(View()), expected) ==> dialog == None && View() == old(View())
    {
      if incoming.None? || (expected.Some? && incoming != expected) { return None; }
      dialog := incoming;
      StopIncomingExpiryLocked();
      incoming, incomingDevAddr, incomingEntrypoint := None, "", "";
    }

    /** The reservation of OnInvite; a refused INVITE is answered busy by the caller. */
    method OnInvite(dialog: Dialog, entrypoint: string, devAddr: string) returns (reserved: bool)
      requires Valid(View()) && Callable(View(), Invite(dialog, entrypoint, devAddr))
      modifies this
      ensures View() == Commit(old(View()), Invite(dialog, entrypoint, devAddr)) && Valid(View())
      ensures reserved <==> old(incoming).None? && old(active).None? && entrypoint != ""
      ensures reserved ==> incoming == Some(dialog)
    {
      if incoming.Some? || active.Some? { return false; }
      if entrypoint == "" { return false; }
      incoming, incomingDevAddr, incomingEntrypoint := Some(dialog), devAddr, entrypoint;
      StopIncomingExpiryLocked();
      incomingExpiry := Some(Timer(dialog, false));
      var _ := PublishLocked(Some(C.IncomingCallStarted(DialogId(dialog), entrypoint)));
      reserved := true;
    }

    /** The commit of Answer, after its 200 OK went out.  A dialog that is neither pending nor
        active any more is unreferenced, and the caller owes it a BYE. */
    method CommitAnswer(dialog: Dialog, entrypoint: string) returns (oweBye: bool)
      requires Valid(View()) && Callable(View(), AnswerCommit(dialog, entrypoint))
      modifies this
      ensures View() == Commit(old(View()), AnswerCommit(dialog, entrypoint)) && Valid(View())
      ensures oweBye <==> active != Some(dialog)
    {
      if incoming != Some(dialog) {
        return active != Some(dialog);
      }
      StopIncomingExpiryLocked();
      incoming, incomingDevAddr, incomingEntrypoint := None, "", "";
      active, activeID, activeIncoming, activeEntrypoint := Some(dialog), DialogId(dialog), true, entrypoint;
      var _ := PublishLocked(Some(C.CallAnswered(DialogId(dialog))));
      oweBye := false;
    }

    method DeclineCall() returns (dialog: Option<Dialog>)
      requires Valid(View())
      modifies this
      ensures View() == Commit(old(View()), Decline) && Valid(View())
      ensures dialog == old(incoming)
    {
      dialog := TakeIncomingLocked(None);
      if dialog.Some? {
        var _ := PublishLocked(Some(C.CallDeclined(DialogId(dialog.value))));
      }
    }

    /** Drops the active dialog; the caller sends it a BYE. */
    method ByeActiveLocked() returns (dialog: Dialog)
      requires Valid(View()) && active.Some?
      modifies this
      ensures View() == Commit(old(View()), HangupCall) && Valid(View())
      ensures Some(dialog) == old(active)
    {
      dialog := active.value;
      var dialogID := activeID;
      active, activeID, activeIncoming, activeEntrypoint := None, "", false, "";
      var event: Option<C.Event> := None;
      if dialogID != "" {
        event := Some(C.CallHungUp(dialogID));
      }
      var _ := PublishLocked(event);
    }

    /** The user's hangup: an active dialog gets a BYE, a ringing one a rejection. */
    method HangUp() returns (bye: Option<Dialog>, reject: Option<Dialog>)
      requires Valid(View())
      modifies this
      ensures View() == Commit(old(View()), Hangup) && Valid(View())
      ensures bye == old(active) && reject == old(incoming)
    {
      if active.Some? {
        var dialog := ByeActiveLocked();
        return Some(dialog), None;
      }
      reject := TakeIncomingLocked(None);
      if reject.Some? {
        var _ := PublishLocked(Some(C.CallHungUp(DialogId(reject.value))));
      }
      bye := None;
    }

    /** The media path's hangup: a ringing call is left exactly as it is. */
    method HangUpCall() returns (bye: Option<Dialog>)
      requires Valid(View())
      modifies this
      ensures View() == Commit(old(View()), HangupCall) && Valid(View())
      ensures bye == old(active) && incoming == old(incoming)
    {
      if active.None? { return None; }
      var dialog := ByeActiveLocked();
      bye := Some(dialog);
    }

    method DropRemoteEnded()
      requires Valid(View())
      modifies this
      ensures View() == Commit(old(View()), RemoteDialogEnded) && Valid(View())
      ensures incoming == old(incoming) && active == None
    {
      if active.None? { return; }
      var _ := ByeActiveLocked();
    }

    method ClearPending(expected: Option<Dialog>, reason: C.CallEndReason) returns (dialog: Option<Dialog>)
      requires Valid(View())
      modifies this
      ensures View() == Commit(old(View()), ClearIncoming(expected, reason)) && Valid(View())
      ensures dialog == if Takes(old(View()), expected) then old(incoming) else None
    {
      dialog := TakeIncomingLocked(expected);
      if dialog.Some? {
        var _ := PublishLocked(Some(C.IncomingCallEnded(DialogId(dialog.value), reason)));
      }
    }

    /** A withdrawn call: an unknown reason counts as cancelled, and no dialog is matched. */
    method EndIncoming(reason: C.CallEndReason) returns (dialog: Option<Dialog>)
      requires Valid(View())
      modifies this
      ensures View() == Commit(old(View()), ClearIncoming(None, Normalized(reason))) && Valid(View())
      ensures dialog == old(incoming)
    {
      dialog := ClearPending(None, Normalized(reason));
    }

    /** StartStream holds the lock across the dial; `outcome` is what the dialer returned. */
    method StartStream(outcome: Option<Dialog>) returns (created: bool, ok: bool)
      requires Valid(View()) && (outcome.Some? ==> outcome.value.Outbound?)
      modifies this
      ensures outcome.Some? ==> View() == Commit(old(View()), Dial(outcome.value))
      ensures outcome.None? ==> View() == old(View())
      ensures Valid(View())
      ensures created <==> outcome.Some? && old(incoming).None? && old(active).None?
      ensures ok <==> created || old(activeIncoming)
    {
      if incoming.Some? { return false, false; }
      if activeIncoming { return false, true; }
      if active.Some? { return false, false; }
      if outcome.None? { return false, false; }
      active := outcome;
      created, ok := true, true;
    }

    /** The locked section of the drain loop. */
    method NextEvent() returns (event: Option<C.Event>)
      requires Valid(View())
      modifies this
      ensures View() == Pop(old(View())) && Valid(View())
      ensures event == if old(pending) == [] then None else Some(old(pending)[0])
    {
      if |pending| == 0 {
        draining := false;
        return None;
      }
      event := Some(pending[0]);
      pending := pending[1..];
    }

    /** The drain loop on its own: everything queued reaches the sink, in commit order. */
    method DrainEvents(sink: C.Projector)
      requires Valid(View())
      modifies this, sink
      ensures View() == old(View()).(pending := [], draining := false)
      ensures sink.state == C.AppliedAll(old(sink.state), old(pending))
    {
      while true
        invariant Valid(View())
        invariant View() == old(View()).(pending := pending, draining := draining)
        invariant C.AppliedAll(sink.state, pending) == C.AppliedAll(old(sink.state), old(pending))
        decreases |pending|
      {
        var event := NextEvent();
        if event.None? { break; }
        var _ := sink.Apply(event.value);
      }
    }
  }

  function Normalized(reason: C.CallEndReason): (r: C.CallEndReason)
    ensures !r.OtherReason?
    ensures !reason.OtherReason? ==> r == reason
    ensures reason.OtherReason? ==> r == C.Cancelled
  {
    if reason.OtherReason? then C.Cancelled else reason
  }
}
