/** Which response an INVITE gets, and why (internal/signaling/manager.go with
    internal/signaling/dialer.go), over all interleavings of the call protocol. */
module CallResponses {
  import opened Prelude
  import C = CoreState
  import A = IncomingDialog
  import M = SignalingManager
  import opened P = CallProtocol

  /** The final responses an action makes due: 486 for an INVITE that finds a call, or no entrypoint; 200
      for an answer, 603 for a decline or a hangup of the pending call; 480 when its expiry fires; 500
      when its 180 cannot be sent. */
  function Reasons(s: Sys, action: Action): set<(M.Dialog, nat)> {
    match action
    case OnInvite(callID, ep, _) =>
      if callID != "" && (s.m.incoming.Some? || s.m.active.Some? || ep == "")
      then {(M.Inbound(s.nextObj, callID), 486)} else {}
    case OnAnswer => if s.m.incoming.Some? then {(s.m.incoming.value, 200)} else {}
    case OnDecline => if s.m.incoming.Some? then {(s.m.incoming.value, 603)} else {}
    case OnHangup => if s.m.active.None? && s.m.incoming.Some? then {(s.m.incoming.value, 603)} else {}
    case OnTimer => if s.m.incomingExpiry.Some? then {(s.m.incomingExpiry.value.dialog, 480)} else {}
    case Run(t, ok) =>
      if t in s.threads && s.threads[t].Ring?
         && (!ok || (s.threads[t].dialog.obj in s.adapters && s.adapters[s.threads[t].dialog.obj].concluded))
      then {(s.threads[t].dialog, 500)} else {}
    case _ => {}
  }

  function Due(actions: seq<Action>): set<(M.Dialog, nat)> {
    if actions == [] then {}
    else Due(actions[..|actions| - 1]) + Reasons(Reach(actions[..|actions| - 1]), actions[|actions| - 1])
  }

  /** What each goroutine is about to send is due. */
  ghost predicate DuePc(due: set<(M.Dialog, nat)>, pc: Pc) {
    && (pc.FinalClaim? || pc.FinalWrite? ==> (pc.dialog, pc.status) in due)
    && (pc.Reject? ==> (pc.dialog, 603) in due)
    && (pc.Rollback? ==> (pc.dialog, 500) in due)
    && (pc.Expire? ==> (pc.dialog, 480) in due)
    && (pc.AnswerClaim? || pc.AnswerWrite? || pc.AnswerDone? ==> (pc.dialog, 200) in due)
  }

  ghost predicate DueSent(due: set<(M.Dialog, nat)>, d: M.Dialog, sent: seq<nat>) {
    forall i | 0 <= i < |sent| :: sent[i] == 180 || (d, sent[i]) in due
  }

  ghost predicate DueInv(s: Sys, due: set<(M.Dialog, nat)>) {
    && (forall t <- s.threads :: DuePc(due, s.threads[t]))
    && (forall obj <- s.adapters :: DueSent(due, M.Inbound(obj, s.adapters[obj].id), s.adapters[obj].sent))
  }

  /** The response a goroutine's section hands to the transaction. */
  function Sends(pc: Pc): Option<nat> {
    match pc
    case Ring(_) => Some(180)
    case FinalWrite(_, status) => Some(status)
    case AnswerWrite(_, _) => Some(200)
    case _ => None
  }

  ghost predicate Sent(s: Sys, n: Sys, t: nat, pc: Pc) {
    && (forall obj :: obj in n.adapters <==> obj in s.adapters)
    && forall obj <- s.adapters ::
         n.adapters[obj].id == s.adapters[obj].id
         && (n.adapters[obj].sent == s.adapters[obj].sent
             || (obj == pc.dialog.obj && pc.dialog.Inbound? && Sends(pc).Some?
                 && n.adapters[obj].sent == s.adapters[obj].sent + [Sends(pc).value]))
  }

  ghost predicate NextDue(s: Sys, n: Sys, t: nat, due: set<(M.Dialog, nat)>) {
    && (forall u <- n.threads | u != t :: u in s.threads && n.threads[u] == s.threads[u])
    && (t in n.threads ==> DuePc(due, n.threads[t]))
  }

  lemma ResponseSends(s: Sys, t: nat, pc: Pc, a: A.Dialog, ok: bool, n: Sys)
    requires t in s.threads && s.threads[t] == pc && pc.dialog.Inbound? && pc.dialog.obj in s.adapters
    requires a == s.adapters[pc.dialog.obj] && n == StepResponse(s, t, a, ok)
    ensures Sent(s, n, t, pc)
  {
  }

  lemma ResponseDue(s: Sys, t: nat, pc: Pc, a: A.Dialog, ok: bool, n: Sys, due: set<(M.Dialog, nat)>)
    requires t in s.threads && s.threads[t] == pc && n == StepResponse(s, t, a, ok) && DuePc(due, pc)
    requires pc.Ring? && (!ok || a.concluded) ==> (pc.dialog, 500) in due
    ensures NextDue(s, n, t, due)
  {
  }

  lemma AnswerSends(s: Sys, t: nat, pc: Pc, a: A.Dialog, ok: bool, n: Sys)
    requires t in s.threads && s.threads[t] == pc && IsAnswer(pc) && pc.dialog.Inbound? && pc.dialog.obj in s.adapters
    requires a == s.adapters[pc.dialog.obj] && n == StepAnswer(s, t, pc.dialog, pc.entrypoint, a, ok)
    ensures Sent(s, n, t, pc)
  {
  }

  lemma AnswerDue(s: Sys, t: nat, pc: Pc, a: A.Dialog, ok: bool, n: Sys, due: set<(M.Dialog, nat)>)
    requires t in s.threads && s.threads[t] == pc && IsAnswer(pc) && DuePc(due, pc)
    requires n == StepAnswer(s, t, pc.dialog, pc.entrypoint, a, ok)
    ensures NextDue(s, n, t, due)
  {
  }

  lemma NoticeSends(s: Sys, t: nat, pc: Pc, ok: bool, n: Sys, due: set<(M.Dialog, nat)>)
    requires t in s.threads && s.threads[t] == pc && (pc.PeerBye? || pc.Callback?) && n == StepNotice(s, t, ok)
    ensures Sent(s, n, t, pc) && NextDue(s, n, t, due)
  {
    DropSends(s, pc.dialog);
  }

  lemma DropSends(s: Sys, d: M.Dialog)
    ensures DropActive(s, d).threads == s.threads && DropActive(s, d).adapters == s.adapters
  {
  }

  lemma ByeSends(s: Sys, t: nat, pc: Pc, n: Sys, due: set<(M.Dialog, nat)>)
    requires t in s.threads && s.threads[t] == pc && pc.SendBye? && n == StepBye(s, t, pc.dialog)
    ensures Sent(s, n, t, pc) && NextDue(s, n, t, due)
  {
  }

  lemma ThreadSends(s: Sys, t: nat, pc: Pc, ok: bool, n: Sys, due: set<(M.Dialog, nat)>)
    requires FrameInv(s) && t in s.threads && s.threads[t] == pc && n == StepThread(s, t, ok) && DuePc(due, pc)
    requires pc.Ring? && pc.dialog.obj in s.adapters && (!ok || s.adapters[pc.dialog.obj].concluded) ==>
               (pc.dialog, 500) in due
    ensures Sent(s, n, t, pc) && NextDue(s, n, t, due)
  {
    assert PcInv(s, t, pc);
    if pc.PeerBye? || pc.Callback? { NoticeSends(s, t, pc, ok, n, due); }
    else if pc.SendBye? { ByeSends(s, t, pc, n, due); }
    else if IsAnswer(pc) {
      AnswerSends(s, t, pc, s.adapters[pc.dialog.obj], ok, n);
      AnswerDue(s, t, pc, s.adapters[pc.dialog.obj], ok, n, due);
    }
    else {
      ResponseSends(s, t, pc, s.adapters[pc.dialog.obj], ok, n);
      ResponseDue(s, t, pc, s.adapters[pc.dialog.obj], ok, n, due);
    }
  }

  lemma SentKeepsDue(s: Sys, n: Sys, t: nat, pc: Pc, due: set<(M.Dialog, nat)>)
    requires FrameInv(s) && DueInv(s, due) && t in s.threads && s.threads[t] == pc
    requires Sent(s, n, t, pc) && NextDue(s, n, t, due)
    ensures DueInv(n, due)
  {
    assert Known(s, pc.dialog) && DuePc(due, pc);
  }

  /** An action of the environment sends nothing itself, and what it sets going is due. */
  lemma EnvironmentKeepsDue(s: Sys, action: Action, due: set<(M.Dialog, nat)>, more: set<(M.Dialog, nat)>)
    requires FrameInv(s) && DueInv(s, due) && !action.Run? && more == due + Reasons(s, action)
    ensures DueInv(Step(s, action), more)
  {
    EnvironmentIsQuiet(s, action, more);
    QuietKeepsDue(s, Step(s, action), due, more);
  }

  /** No response is sent, and whatever goroutine is new has its response due. */
  ghost predicate Quiet(s: Sys, n: Sys, more: set<(M.Dialog, nat)>) {
    && (forall u <- n.threads :: (u in s.threads && n.threads[u] == s.threads[u]) || DuePc(more, n.threads[u]))
    && (forall obj <- n.adapters ::
          || (obj in s.adapters && n.adapters[obj].id == s.adapters[obj].id && n.adapters[obj].sent == s.adapters[obj].sent)
          || n.adapters[obj].sent == [])
  }

  lemma SpawnIsQuiet(s: Sys, base: Sys, pc: Pc, more: set<(M.Dialog, nat)>)
    requires base.threads == s.threads && base.adapters == s.adapters && DuePc(more, pc)
    ensures Quiet(s, Spawn(base, pc), more)
  {
  }

  lemma InviteIsQuiet(s: Sys, callID: string, ep: string, dev: string, more: set<(M.Dialog, nat)>)
    requires Reasons(s, OnInvite(callID, ep, dev)) <= more
    ensures Quiet(s, StepInvite(s, callID, ep, dev), more)
  {
  }

  lemma HangupIsQuiet(s: Sys, more: set<(M.Dialog, nat)>)
    requires Reasons(s, OnHangup) <= more
    ensures Quiet(s, StepHangup(s), more)
  {
    if s.m.active.Some? {
      TakeIsQuiet(s, M.Hangup, more);
    } else if s.m.incoming.Some? {
      SpawnIsQuiet(s, Do(s, M.Hangup), Reject(s.m.incoming.value), more);
    }
  }

  lemma TakeIsQuiet(s: Sys, op: M.Op, more: set<(M.Dialog, nat)>)
    requires s.m.active.Some?
    ensures Quiet(s, TakeActive(s, op), more)
  {
    var d := s.m.active.value;
    SpawnIsQuiet(s, Do(s, op).(place := s.place[d := With(s.nextThread)]), SendBye(d), more);
  }

  lemma WithdrawIsQuiet(s: Sys, obj: nat, reason: C.CallEndReason, more: set<(M.Dialog, nat)>)
    ensures Quiet(s, Step(s, OnWithdraw(obj, reason)), more)
  {
  }

  lemma PeerByeIsQuiet(s: Sys, d: M.Dialog, more: set<(M.Dialog, nat)>)
    ensures Quiet(s, Step(s, OnPeerBye(d)), more)
  {
  }

  lemma TimerIsQuiet(s: Sys, more: set<(M.Dialog, nat)>)
    requires Reasons(s, OnTimer) <= more
    ensures Quiet(s, Step(s, OnTimer), more)
  {
    if s.m.incomingExpiry.Some? && !s.m.incomingExpiry.value.fired {
      SpawnIsQuiet(s, Do(s, M.TimerFires), Expire(s.m.incomingExpiry.value.dialog), more);
    }
  }

  lemma AnswerIsQuiet(s: Sys, more: set<(M.Dialog, nat)>)
    requires Reasons(s, OnAnswer) <= more
    ensures Quiet(s, Step(s, OnAnswer), more)
  {
    if s.m.incoming.Some? { SpawnIsQuiet(s, s, AnswerClaim(s.m.incoming.value, s.m.incomingEntrypoint), more); }
  }

  lemma DeclineIsQuiet(s: Sys, more: set<(M.Dialog, nat)>)
    requires Reasons(s, OnDecline) <= more
    ensures Quiet(s, Step(s, OnDecline), more)
  {
    if s.m.incoming.Some? { SpawnIsQuiet(s, Do(s, M.Decline), FinalClaim(s.m.incoming.value, 603), more); }
  }

  lemma DialIsQuiet(s: Sys, more: set<(M.Dialog, nat)>)
    ensures Quiet(s, Step(s, OnDial), more)
  {
  }

  lemma DrainIsQuiet(s: Sys, i: nat, more: set<(M.Dialog, nat)>)
    ensures Quiet(s, Step(s, Drain(i)), more)
  {
  }

  lemma EventIsQuiet(s: Sys, e: C.Event, more: set<(M.Dialog, nat)>)
    ensures Quiet(s, Step(s, OtherEvent(e)), more)
  {
  }

  lemma EnvironmentIsQuiet(s: Sys, action: Action, more: set<(M.Dialog, nat)>)
    requires !action.Run? && Reasons(s, action) <= more
    ensures Quiet(s, Step(s, action), more)
  {
    match action
    case OnInvite(callID, ep, dev) => InviteIsQuiet(s, callID, ep, dev, more);
    case OnAnswer => AnswerIsQuiet(s, more);
    case OnDecline => DeclineIsQuiet(s, more);
    case OnHangup => HangupIsQuiet(s, more);
    case OnHangupCall => if s.m.active.Some? { TakeIsQuiet(s, M.HangupCall, more); }
    case OnPeerBye(d) => PeerByeIsQuiet(s, d, more);
    case OnDial => DialIsQuiet(s, more);
    case OnTimer => TimerIsQuiet(s, more);
    case OnWithdraw(obj, reason) => WithdrawIsQuiet(s, obj, reason, more);
    case Drain(i) => DrainIsQuiet(s, i, more);
    case OtherEvent(e) => EventIsQuiet(s, e, more);
  }

  lemma QuietKeepsDue(s: Sys, n: Sys, due: set<(M.Dialog, nat)>, more: set<(M.Dialog, nat)>)
    requires DueInv(s, due) && due <= more && Quiet(s, n, more)
    ensures DueInv(n, more)
  {
    MoreIsDue(s, due, more);
  }

  lemma MoreIsDue(s: Sys, due: set<(M.Dialog, nat)>, more: set<(M.Dialog, nat)>)
    requires DueInv(s, due) && due <= more
    ensures DueInv(s, more)
  {
  }

  lemma {:induction false} ReachDue(actions: seq<Action>)
    ensures DueInv(Reach(actions), Due(actions))
  {
    if actions != [] {
      var before, last := actions[..|actions| - 1], actions[|actions| - 1];
      var s := Reach(before);
      ReachDue(before);
      ReachInv(before);
      if last.Run? {
        MoreIsDue(s, Due(before), Due(actions));
        if last.thread in s.threads {
          var t := last.thread;
          ThreadSends(s, t, s.threads[t], last.ok, Step(s, last), Due(actions));
          SentKeepsDue(s, Step(s, last), t, s.threads[t], Due(actions));
        }
      } else {
        EnvironmentKeepsDue(s, last, Due(before), Due(actions));
      }
    }
  }

  /** Every final response has its reason in the run: 486 for an INVITE that found a call or had no
      entrypoint, 200 for an answer, 603 for a decline or hangup, 480 for the expiry, 500 for a 180 that
      could not be sent, each of that very call while it was pending; all other responses are 180. */
  lemma {:induction false} ResponsesHaveReasons(actions: seq<Action>, obj: nat, i: nat)
    requires obj in Reach(actions).adapters && i < |Reach(actions).adapters[obj].sent|
    ensures
      var a := Reach(actions).adapters[obj];
      a.sent[i] == 180 || (M.Inbound(obj, a.id), a.sent[i]) in Due(actions)
  {
    ReachDue(actions);
  }
}
