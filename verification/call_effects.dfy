/** What a commit of the manager shows on the projected state (internal/signaling/manager.go with
    internal/core/state.go).

    The lemmas apply whatever a commit appended to the queue to a projector that agrees with the
    manager, and say what is shown then. */
module CallEffects {
  import opened Prelude
  import C = CoreState
  import M = SignalingManager

  /** A projector that shows exactly the manager's calls, with everything queued before delivered. */
  ghost predicate UpToDate(p: C.State, m: M.State) {
    M.Valid(m) && M.Agrees(C.CallsOf(p), m) && C.Coherent(p)
  }

  /** The projector after the events a commit appended. */
  function Shown(p: C.State, m: M.State, op: M.Op): C.State {
    var queue := M.Commit(m, op).pending;
    if |m.pending| <= |queue| then C.AppliedAll(p, queue[|m.pending|..]) else p
  }

  /** The state `t` shows, with its call state and revision brought up to date. */
  ghost predicate ShowsAs(p: C.State, shown: C.State, t: C.State) {
    && shown == t.(revision := shown.revision, callState := shown.callState)
    && shown.revision == (p.revision + 1) % C.REVISIONS
    && shown.callState == (if t.activeCall.Some? then C.Active
                           else if t.physicalRing.Some? || t.incomingCall.Some? then C.Ringing
                           else if t.previewStream.Some? then C.Previewing else C.Idle)
  }

  function WithoutRing(p: C.State, ep: string): Option<string> {
    if p.physicalRing == Some(ep) then None else p.physicalRing
  }

  lemma OneEvent(p: C.State, m: M.State, op: M.Op, e: C.Event)
    requires M.Commit(m, op).pending == m.pending + [e]
    ensures Shown(p, m, op) == C.Applied(p, e)
  {
    var queue := M.Commit(m, op).pending;
    assert queue[|m.pending|..] == [e] && [e][1..] == [];
    assert C.AppliedAll(p, [e]) == C.AppliedAll(C.Applied(p, e), []);
  }

  lemma NoEvent(p: C.State, m: M.State, op: M.Op)
    requires M.Commit(m, op).pending == m.pending
    ensures Shown(p, m, op) == p
  {
    assert m.pending[|m.pending|..] == [];
  }

  /** A reserved INVITE shows as the incoming call of its entrypoint; a refused one shows nothing. */
  lemma InviteShows(p: C.State, m: M.State, obj: nat, id: string, ep: string, dev: string)
    requires UpToDate(p, m) && id != ""
    ensures
      var op := M.Invite(M.Inbound(obj, id), ep, dev);
      if m.incoming.None? && m.active.None? && ep != "" then
        && ShowsAs(p, Shown(p, m, op), p.(incomingCall := Some(C.Call(id, ep)), lastIncomingCallEnd := None))
        && M.Commit(m, op).incoming == Some(M.Inbound(obj, id)) && M.Commit(m, op).incomingDevAddr == dev
      else Shown(p, m, op) == p && M.Commit(m, op) == m
  {
    var op := M.Invite(M.Inbound(obj, id), ep, dev);
    if m.incoming.None? && m.active.None? && ep != "" {
      OneEvent(p, m, op, C.IncomingCallStarted(id, ep));
    } else {
      NoEvent(p, m, op);
    }
  }

  /** The answer makes the ringing call the active one and ends its ring on the bus. */
  lemma AnswerShows(p: C.State, m: M.State, d: M.Dialog)
    requires UpToDate(p, m) && m.incoming == Some(d)
    ensures
      ShowsAs(p, Shown(p, m, M.AnswerCommit(d, m.incomingEntrypoint)),
              p.(incomingCall := None, activeCall := p.incomingCall, lastIncomingCallEnd := None,
                 physicalRing := WithoutRing(p, m.incomingEntrypoint)))
    ensures p.incomingCall.Some?
  {
    OneEvent(p, m, M.AnswerCommit(d, m.incomingEntrypoint), C.CallAnswered(d.id));
  }

  /** The answer of a call no longer pending shows nothing and moves nothing. */
  lemma LateAnswerShows(p: C.State, m: M.State, d: M.Dialog, ep: string)
    requires UpToDate(p, m) && m.incoming != Some(d)
    ensures Shown(p, m, M.AnswerCommit(d, ep)) == p && M.Commit(m, M.AnswerCommit(d, ep)) == m
  {
    NoEvent(p, m, M.AnswerCommit(d, ep));
  }

  /** Declining leaves the ring on the bus alone and is no end of the call to report. */
  lemma DeclineShows(p: C.State, m: M.State)
    requires UpToDate(p, m) && m.incoming.Some?
    ensures ShowsAs(p, Shown(p, m, M.Decline), p.(incomingCall := None))
    ensures Shown(p, m, M.Decline).physicalRing == p.physicalRing
    ensures Shown(p, m, M.Decline).lastIncomingCallEnd.None?
  {
    OneEvent(p, m, M.Decline, C.CallDeclined(m.incoming.value.id));
  }

  /** The user's hangup of a ringing call ends the ring of its entrypoint with it, so no ring is left
      without a call to answer, and is no end of the call to report. */
  lemma HangupOfRingingShows(p: C.State, m: M.State)
    requires UpToDate(p, m) && m.incoming.Some?
    ensures ShowsAs(p, Shown(p, m, M.Hangup),
                    p.(incomingCall := None, physicalRing := WithoutRing(p, m.incomingEntrypoint)))
    ensures Shown(p, m, M.Hangup).physicalRing != Some(m.incomingEntrypoint)
    ensures Shown(p, m, M.Hangup).lastIncomingCallEnd.None?
    ensures M.Commit(m, M.Hangup).incoming.None?
  {
    OneEvent(p, m, M.Hangup, C.CallHungUp(m.incoming.value.id));
  }

  /** Every end of an answered call, by the user, by the media path or by its peer, shows the same: the
      active call is gone and nothing else moves.  A dialled preview was never shown. */
  lemma ActiveEndShows(p: C.State, m: M.State, op: M.Op)
    requires UpToDate(p, m) && m.active.Some? && (op == M.Hangup || op == M.HangupCall || op == M.RemoteDialogEnded)
    ensures m.activeIncoming ==> ShowsAs(p, Shown(p, m, op), p.(activeCall := None))
    ensures !m.activeIncoming ==> Shown(p, m, op) == p
    ensures M.Commit(m, op).active.None? && M.Commit(m, op).incoming == m.incoming
  {
    if m.activeIncoming {
      OneEvent(p, m, op, C.CallHungUp(m.activeID));
    } else {
      NoEvent(p, m, op);
    }
  }

  /** The media path's hangup and the peer's BYE never reach a ringing call. */
  lemma RingingCallIsLeftAlone(p: C.State, m: M.State, op: M.Op)
    requires UpToDate(p, m) && m.active.None? && (op == M.HangupCall || op == M.RemoteDialogEnded)
    ensures Shown(p, m, op) == p && M.Commit(m, op) == m
  {
    NoEvent(p, m, op);
  }

  /** A cleared call is shown as ended, under its own name and with the reason it was cleared for. */
  lemma ClearShows(p: C.State, m: M.State, expected: Option<M.Dialog>, reason: C.CallEndReason)
    requires UpToDate(p, m) && m.incoming.Some? && (expected.None? || expected == m.incoming)
    ensures
      var op := M.ClearIncoming(expected, reason);
      && ShowsAs(p, Shown(p, m, op),
                 p.(incomingCall := None, lastIncomingCallEnd := Some(C.CallEnd(m.incoming.value.id, reason))))
      && M.Commit(m, op).incoming.None?
  {
    OneEvent(p, m, M.ClearIncoming(expected, reason), C.IncomingCallEnded(m.incoming.value.id, reason));
  }

  /** A call that is not the expected one stays as it is. */
  lemma ClearMisses(p: C.State, m: M.State, expected: Option<M.Dialog>, reason: C.CallEndReason)
    requires UpToDate(p, m) && !(m.incoming.Some? && (expected.None? || expected == m.incoming))
    ensures
      var op := M.ClearIncoming(expected, reason);
      Shown(p, m, op) == p && M.Commit(m, op) == m
  {
    NoEvent(p, m, M.ClearIncoming(expected, reason));
  }

  /** A dial shows nothing; it goes through exactly when no call is pending or up. */
  lemma DialShows(p: C.State, m: M.State, obj: nat)
    requires UpToDate(p, m)
    ensures
      var op := M.Dial(M.Outbound(obj));
      && Shown(p, m, op) == p
      && M.Commit(m, op) == (if m.incoming.None? && m.active.None? then m.(active := Some(M.Outbound(obj))) else m)
  {
    NoEvent(p, m, M.Dial(M.Outbound(obj)));
  }

  /** A source adopts the call the projector shows for its own entrypoint: as ringing while it rings, as
      answered while it is active, and otherwise none. */
  lemma AdoptsTheShownCall(p: C.State, m: M.State, ep: string)
    requires UpToDate(p, m)
    ensures M.AdoptRingingCall(m, ep).Ringing? <==> p.incomingCall.Some? && p.incomingCall.value.entrypoint == ep
    ensures M.AdoptRingingCall(m, ep).Answered? <==> p.activeCall.Some? && p.activeCall.value.entrypoint == ep
    ensures M.HasRingingInboundCall(m) <==> p.incomingCall.Some?
    ensures M.HasAnsweredInboundCall(m) <==> p.activeCall.Some?
  {
  }
}
