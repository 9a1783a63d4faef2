/** The projected application state (internal/core/state.go, internal/core/events.go).

    `Projector.Apply` works event by event, as the program does.  Its specification `After` is
    written field by field instead, and splits off the three call fields: `CallsAfter` alone
    decides what a call event does to them, whatever the other fields hold. */
module CoreState {
  import opened Prelude

  datatype CallEndReason = Cancelled | Timeout | Elsewhere | OtherReason(text: string)

  datatype Event =
    | RingStarted(entrypoint: string)
    | RingCleared(entrypoint: string)
    | IncomingCallStarted(dialog: string, entrypoint: string)
    | IncomingCallEnded(dialog: string, reason: CallEndReason)
    | CallAnswered(dialog: string)
    | CallDeclined(dialog: string)
    | CallHungUp(dialog: string)
    | PreviewStarted(stream: string, entrypoint: string)
    | PreviewStopped(stream: string)
    | AudioMuted
    | AudioUnmuted
    | VoicemailEnabled
    | VoicemailDisabled
    | VoicemailUnavailable

  datatype Call = Call(dialog: string, entrypoint: string)

  datatype CallEnd = CallEnd(dialog: string, reason: CallEndReason)

  datatype Preview = Preview(stream: string, entrypoint: string)

  datatype CallState = Idle | Ringing | Active | Previewing

  datatype Rejection = InvalidTransition

  datatype State = State(
    revision: nat,
    callState: CallState,
    physicalRing: Option<string>,
    incomingCall: Option<Call>,
    lastIncomingCallEnd: Option<CallEnd>,
    activeCall: Option<Call>,
    previewStream: Option<Preview>,
    muted: bool,
    voicemail: Option<bool>)

  const INITIAL := State(0, Idle, None, None, None, None, None, false, None)

  /** Revisions are unsigned 64-bit counters. */
  const REVISIONS: nat := 0x1_0000_0000_0000_0000

  function DeriveCallState(s: State): CallState {
    if s.activeCall.Some? then Active
    else if s.physicalRing.Some? || s.incomingCall.Some? then Ringing
    else if s.previewStream.Some? then Previewing
    else Idle
  }

  /** The part of the state only call events touch. */
  datatype Calls = Calls(incoming: Option<Call>, active: Option<Call>, lastEnd: Option<CallEnd>)

  function CallsOf(s: State): Calls {
    Calls(s.incomingCall, s.activeCall, s.lastIncomingCallEnd)
  }

  predicate IsCallEvent(e: Event) {
    e.IncomingCallStarted? || e.IncomingCallEnded? || e.CallAnswered? || e.CallDeclined? || e.CallHungUp?
  }

  predicate IsPending(c: Calls, dialog: string) {
    c.incoming.Some? && c.incoming.value.dialog == dialog
  }

  /** What an event does to the call fields; None when it is an invalid transition. */
  function CallsAfter(c: Calls, e: Event): Option<Calls> {
    match e
    case IncomingCallStarted(d, ep) =>
      if d != "" && ep != "" && c.incoming.None? && c.active.None?
      then Some(Calls(Some(Call(d, ep)), None, None)) else None
    case IncomingCallEnded(d, reason) =>
      if c.incoming.None? then Some(c)
      else if IsPending(c, d) then Some(Calls(None, c.active, Some(CallEnd(d, reason)))) else None
    case CallAnswered(d) =>
      if IsPending(c, d) then Some(Calls(None, c.incoming, None)) else None
    case CallDeclined(d) =>
      if IsPending(c, d) then Some(c.(incoming := None)) else None
    case CallHungUp(d) =>
      if c.active.Some? then if c.active.value.dialog == d then Some(c.(active := None)) else None
      else if IsPending(c, d) then Some(c.(incoming := None)) else None
    case _ => Some(c)
  }

  /** The entrypoint whose ring an accepted event ends early, if any. */
  function AnsweredRing(s: State, e: Event): Option<string> {
    if s.incomingCall.Some? && (e.CallAnswered? || (e.CallHungUp? && s.activeCall.None?))
    then Some(s.incomingCall.value.entrypoint) else None
  }

  function RingAfter(s: State, e: Event): Option<string> {
    match e
    case RingStarted(ep) => Some(ep)
    case RingCleared(_) => None
    case _ => if AnsweredRing(s, e).Some? && s.physicalRing == AnsweredRing(s, e) then None else s.physicalRing
  }

  function PreviewAfter(s: State, e: Event): Option<Preview> {
    match e
    case PreviewStarted(stream, ep) => Some(Preview(stream, ep))
    case PreviewStopped(_) => None
    case _ => s.previewStream
  }

  predicate Accepted(s: State, e: Event) {
    && CallsAfter(CallsOf(s), e).Some?
    && (e.RingStarted? ==> e.entrypoint != "")
    && (e.RingCleared? ==> s.physicalRing.None? || e.entrypoint == "" || s.physicalRing == Some(e.entrypoint))
    && (e.PreviewStarted? ==> e.stream != "" && e.entrypoint != "" && s.previewStream.None?)
    && (e.PreviewStopped? ==> s.previewStream.Some? && s.previewStream.value.stream == e.stream)
  }

  /** The state after an accepted event, field by field. */
  function Fields(s: State, e: Event): State
    requires Accepted(s, e)
  {
    var calls := CallsAfter(CallsOf(s), e).value;
    State((s.revision + 1) % REVISIONS, s.callState, RingAfter(s, e), calls.incoming, calls.lastEnd, calls.active,
          PreviewAfter(s, e),
          if e.AudioMuted? then true else if e.AudioUnmuted? then false else s.muted,
          match e
          case VoicemailEnabled => Some(true)
          case VoicemailDisabled => Some(false)
          case VoicemailUnavailable => None
          case _ => s.voicemail)
  }

  function After(s: State, e: Event): Result<State, Rejection> {
    if Accepted(s, e) then var t := Fields(s, e); Ok(t.(callState := DeriveCallState(t))) else Err(InvalidTransition)
  }

  /** What the projector holds after an event: a rejected one changes nothing. */
  function Applied(s: State, e: Event): State {
    var r := After(s, e);
    if r.Ok? then r.value else s
  }

  /** Ends the physical ring of the entrypoint whose call was answered or hung up here. */
  function ClearRingOf(s: State, entrypoint: string): State {
    if s.physicalRing.Some? && s.physicalRing.value == entrypoint then s.(physicalRing := None) else s
  }

  class Projector {
    var state: State

    constructor ()
      ensures state == INITIAL
    {
      state := INITIAL;
    }

    method Apply(event: Event) returns (r: Result<State, Rejection>)
      modifies this
      ensures r == After(old(state), event)
      ensures state == Applied(old(state), event)
    {
      var next := state;
      match event {
        case RingStarted(ep) =>
          if ep == "" { return Err(InvalidTransition); }
          next := next.(physicalRing := Some(ep));
        case RingCleared(ep) =>
          if next.physicalRing.Some? {
            if ep != "" && ep != next.physicalRing.value { return Err(InvalidTransition); }
            next := next.(physicalRing := None);
          }
        case IncomingCallStarted(d, ep) =>
          if d == "" || ep == "" { return Err(InvalidTransition); }
          if next.incomingCall.Some? || next.activeCall.Some? { return Err(InvalidTransition); }
          next := next.(lastIncomingCallEnd := None);
          next := next.(incomingCall := Some(Call(d, ep)));
        case IncomingCallEnded(d, reason) =>
          if next.incomingCall.Some? {
            if d != next.incomingCall.value.dialog { return Err(InvalidTransition); }
            next := next.(incomingCall := None);
            next := next.(lastIncomingCallEnd := Some(CallEnd(d, reason)));
          }
        case CallAnswered(d) =>
          if next.incomingCall.None? || d != next.incomingCall.value.dialog { return Err(InvalidTransition); }
          var incoming := next.incomingCall.value;
          next := ClearRingOf(next, incoming.entrypoint);
          next := next.(lastIncomingCallEnd := None);
          next := next.(activeCall := Some(Call(incoming.dialog, incoming.entrypoint)));
          next := next.(incomingCall := None);
        case CallDeclined(d) =>
          if next.incomingCall.None? || d != next.incomingCall.value.dialog { return Err(InvalidTransition); }
          next := next.(incomingCall := None);
        case CallHungUp(d) =>
          if next.activeCall.Some? {
            if d != next.activeCall.value.dialog { return Err(InvalidTransition); }
            next := next.(activeCall := None);
          } else {
            if next.incomingCall.None? || d != next.incomingCall.value.dialog { return Err(InvalidTransition); }
            next := ClearRingOf(next, next.incomingCall.value.entrypoint);
            next := next.(incomingCall := None);
          }
        case PreviewStarted(stream, ep) =>
          if stream == "" || ep == "" || next.previewStream.Some? { return Err(InvalidTransition); }
          next := next.(previewStream := Some(Preview(stream, ep)));
        case PreviewStopped(stream) =>
          if next.previewStream.None? || stream != next.previewStream.value.stream { return Err(InvalidTransition); }
          next := next.(previewStream := None);
        case AudioMuted => next := next.(muted := true);
        case AudioUnmuted => next := next.(muted := false);
        case VoicemailEnabled => next := next.(voicemail := Some(true));
        case VoicemailDisabled => next := next.(voicemail := Some(false));
        case VoicemailUnavailable => next := next.(voicemail := None);
      }
      next := next.(revision := (next.revision + 1) % REVISIONS);
      next := next.(callState := DeriveCallState(next));
      state := next;
      r := Ok(next);
    }
  }

  /** The call fields evolve on their own: a call event is accepted exactly when they accept it, and
      no other event reaches them. */
  lemma CallFieldsAreIndependent(s: State, e: Event)
    ensures CallsAfter(CallsOf(s), e).Some? ==> CallsOf(Applied(s, e)) == CallsAfter(CallsOf(s), e).value
    ensures IsCallEvent(e) ==> (After(s, e).Ok? <==> CallsAfter(CallsOf(s), e).Some?)
    ensures !IsCallEvent(e) ==> CallsOf(Applied(s, e)) == CallsOf(s)
  {
  }

  /** Folds events over the call fields; None as soon as one is rejected. */
  function FoldCalls(c: Calls, es: seq<Event>): Option<Calls>
    decreases |es|
  {
    if es == [] then Some(c)
    else
      var next := CallsAfter(c, es[0]);
      if next.None? then None else FoldCalls(next.value, es[1..])
  }

  lemma {:induction false} FoldCallsSnoc(c: Calls, es: seq<Event>, e: Event)
    ensures FoldCalls(c, es + [e]) ==
            if FoldCalls(c, es).None? then None else CallsAfter(FoldCalls(c, es).value, e)
    decreases |es|
  {
    if es == [] {
      assert es + [e] == [e];
    } else {
      assert (es + [e])[0] == es[0] && (es + [e])[1..] == es[1..] + [e];
      if CallsAfter(c, es[0]).Some? {
        FoldCallsSnoc(CallsAfter(c, es[0]).value, es[1..], e);
      }
    }
  }

  function AppliedAll(s: State, es: seq<Event>): State
    decreases |es|
  {
    if es == [] then s else AppliedAll(Applied(s, es[0]), es[1..])
  }

  /** At most one call, no stale end beside a call, and a call state derived from the other fields. */
  ghost predicate Coherent(s: State) {
    && !(s.incomingCall.Some? && s.activeCall.Some?)
    && (s.lastIncomingCallEnd.Some? ==> s.incomingCall.None? && s.activeCall.None?)
    && s.callState == DeriveCallState(s)
  }

  /** Every sequence of events whatever, rejected ones included, keeps the projector coherent. */
  lemma {:induction false} ProjectorStaysCoherent(s: State, es: seq<Event>)
    requires Coherent(s)
    ensures Coherent(AppliedAll(s, es))
    decreases |es|
  {
    if es != [] {
      ProjectorStaysCoherent(Applied(s, es[0]), es[1..]);
    }
  }

  /** Once a call of this entrypoint is answered, other events cannot bring its ring back. */
  lemma {:induction false} RingStaysAnswered(s: State, ep: string, es: seq<Event>)
    requires s.physicalRing != Some(ep) && s.incomingCall.None?
    requires forall e <- es :: !IsCallEvent(e) && e != RingStarted(ep)
    ensures var t := AppliedAll(s, es); t.physicalRing != Some(ep) && CallsOf(t) == CallsOf(s)
    decreases |es|
  {
    if es != [] {
      assert es[0] in es;
      RingStaysAnswered(Applied(s, es[0]), ep, es[1..]);
    }
  }

  /** A call answered and later hung up leaves no phantom ring: whatever other sources report in
      between, short of a new ring of its entrypoint, the state reads ringing afterwards exactly
      when another entrypoint is ringing. */
  lemma AnsweredCallLeavesNoRing(s: State, d: string, es: seq<Event>)
    requires Coherent(s) && s.incomingCall.Some? && s.incomingCall.value.dialog == d
    requires forall e <- es :: !IsCallEvent(e) && e != RingStarted(s.incomingCall.value.entrypoint)
    ensures
      var t := Applied(AppliedAll(Applied(s, CallAnswered(d)), es), CallHungUp(d));
      && CallsOf(t) == Calls(None, None, None)
      && (t.callState == Ringing <==>
          t.physicalRing.Some? && t.physicalRing.value != s.incomingCall.value.entrypoint)
  {
    RingStaysAnswered(Applied(s, CallAnswered(d)), s.incomingCall.value.entrypoint, es);
  }

  // ----- What each event means -----

  /** An accepted event changes what the state shows and counts; nothing else of the state moves. */
  ghost predicate Shows(s: State, e: Event, t: State) {
    && After(s, e) == Ok(t.(revision := (s.revision + 1) % REVISIONS,
                            callState := if t.activeCall.Some? then Active
                                         else if t.physicalRing.Some? || t.incomingCall.Some? then Ringing
                                         else if t.previewStream.Some? then Previewing else Idle))
  }

  ghost predicate Rejected(s: State, e: Event) {
    After(s, e).Err? && Applied(s, e) == s
  }

  /** The bus ring: it starts for any named entrypoint and is cleared by its own entrypoint or by none. */
  lemma RingEvents(s: State, ep: string)
    ensures ep != "" ==> Shows(s, RingStarted(ep), s.(physicalRing := Some(ep)))
    ensures ep == "" ==> Rejected(s, RingStarted(ep))
    ensures s.physicalRing.None? || ep == "" || s.physicalRing.value == ep ==>
              Shows(s, RingCleared(ep), s.(physicalRing := None))
    ensures s.physicalRing.Some? && ep != "" && s.physicalRing.value != ep ==> Rejected(s, RingCleared(ep))
  {
  }

  /** A call comes in only when there is none, and forgets how the one before ended. */
  lemma CallStarts(s: State, d: string, ep: string)
    ensures d != "" && ep != "" && s.incomingCall.None? && s.activeCall.None? ==>
              Shows(s, IncomingCallStarted(d, ep), s.(incomingCall := Some(Call(d, ep)), lastIncomingCallEnd := None))
    ensures d == "" || ep == "" || s.incomingCall.Some? || s.activeCall.Some? ==>
              Rejected(s, IncomingCallStarted(d, ep))
  {
  }

  ghost predicate RingsFor(s: State, d: string) {
    s.incomingCall.Some? && s.incomingCall.value.dialog == d
  }

  function WithoutRingOf(ring: Option<string>, ep: string): Option<string> {
    if ring == Some(ep) then None else ring
  }

  /** The end of a ringing call is kept with its reason; the answer makes that very call the active one;
      a decline leaves the bus ring on; an answer and a hangup end it if it is the call's own. */
  lemma RingingCallEnds(s: State, d: string, reason: CallEndReason)
    ensures RingsFor(s, d) ==>
              var ep := s.incomingCall.value.entrypoint;
              && Shows(s, IncomingCallEnded(d, reason),
                       s.(incomingCall := None, lastIncomingCallEnd := Some(CallEnd(d, reason))))
              && Shows(s, CallAnswered(d),
                       s.(incomingCall := None, activeCall := Some(Call(d, ep)), lastIncomingCallEnd := None,
                          physicalRing := WithoutRingOf(s.physicalRing, ep)))
              && Shows(s, CallDeclined(d), s.(incomingCall := None))
              && (s.activeCall.None? ==>
                    Shows(s, CallHungUp(d), s.(incomingCall := None, physicalRing := WithoutRingOf(s.physicalRing, ep))))
    ensures !RingsFor(s, d) ==> Rejected(s, CallAnswered(d)) && Rejected(s, CallDeclined(d))
    ensures s.incomingCall.None? ==> Shows(s, IncomingCallEnded(d, reason), s)
    ensures s.incomingCall.Some? && !RingsFor(s, d) ==> Rejected(s, IncomingCallEnded(d, reason))
  {
  }

  lemma ActiveCallEnds(s: State, d: string)
    ensures s.activeCall.Some? && s.activeCall.value.dialog == d ==> Shows(s, CallHungUp(d), s.(activeCall := None))
    ensures s.activeCall.Some? && s.activeCall.value.dialog != d ==> Rejected(s, CallHungUp(d))
    ensures s.activeCall.None? && !RingsFor(s, d) ==> Rejected(s, CallHungUp(d))
  {
  }

  /** One preview at a time, stopped under its own name. */
  lemma PreviewEvents(s: State, stream: string, ep: string)
    ensures stream != "" && ep != "" && s.previewStream.None? ==>
              Shows(s, PreviewStarted(stream, ep), s.(previewStream := Some(Preview(stream, ep))))
    ensures stream == "" || ep == "" || s.previewStream.Some? ==> Rejected(s, PreviewStarted(stream, ep))
    ensures s.previewStream.Some? && s.previewStream.value.stream == stream ==>
              Shows(s, PreviewStopped(stream), s.(previewStream := None))
    ensures s.previewStream.None? || s.previewStream.value.stream != stream ==> Rejected(s, PreviewStopped(stream))
  {
  }

  lemma SwitchEvents(s: State)
    ensures Shows(s, AudioMuted, s.(muted := true)) && Shows(s, AudioUnmuted, s.(muted := false))
    ensures Shows(s, VoicemailEnabled, s.(voicemail := Some(true)))
    ensures Shows(s, VoicemailDisabled, s.(voicemail := Some(false)))
    ensures Shows(s, VoicemailUnavailable, s.(voicemail := None))
  {
  }
}
