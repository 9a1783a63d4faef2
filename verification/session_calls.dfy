/** Which call a media session ends (internal/media/source_session.go with
    internal/signaling/manager.go).

    A session decides under its own lock to hang up, and calls the manager with that lock released;
    `HangupCall` then takes whatever dialog is active. */
module SessionCalls {
  import opened Prelude
  import M = SignalingManager
  import S = SourceSession

  /** What StartStream or AdoptRingingCall gave the session: a dialog it dialled, or the inbound one it
      borrows. */
  datatype Grant = Nothing | Dialled(dialog: M.Dialog) | Borrowed(dialog: M.Dialog)

  /** `calls` counts the HangupCall calls decided but not made yet. */
  datatype Session = Session(y: S.Sys, begun: bool, grant: Grant, calls: nat)

  const BORN := Session(S.START, false, Nothing, 0)

  datatype Sys = Sys(m: M.State, nextObj: nat, sessions: map<nat, Session>)

  const START := Sys(M.INITIAL, 0, map[])

  datatype Action =
    | NewSession(x: nat)
    | StartStream(x: nat)
    | AdoptRingingCall(x: nat, entrypoint: string)
    | Ready(x: nat, answered: bool)
    | Runs(x: nat, action: S.Action)
    | HangsUp(x: nat)
    | Manage(op: M.Op)

  function Set(s: Sys, x: nat, session: Session): Sys {
    s.(sessions := s.sessions[x := session])
  }

  /** StartStream dials, or lends the answered call, or fails. */
  function StepStream(s: Sys, x: nat, session: Session): Sys {
    if s.m.incoming.Some? || (s.m.active.Some? && !s.m.activeIncoming) then s
    else if s.m.active.Some? then Set(s, x, session.(grant := Borrowed(s.m.active.value)))
    else
      var d := M.Outbound(s.nextObj);
      Set(s.(m := M.Commit(s.m, M.Dial(d)), nextObj := s.nextObj + 1), x, session.(grant := Dialled(d)))
  }

  function StepAdopt(s: Sys, x: nat, session: Session, entrypoint: string): Sys {
    match M.AdoptRingingCall(s.m, entrypoint)
    case Ringing => Set(s, x, session.(grant := Borrowed(s.m.incoming.value)))
    case Answered => Set(s, x, session.(grant := Borrowed(s.m.active.value)))
    case NoInboundCall => s
  }

  function StepSession(session: Session, a: S.Action): Session {
    var y := S.Step(session.y, a);
    session.(y := y, begun := session.begun || a.StartCalled?,
             calls := if y.hangups > session.y.hangups then session.calls + 1 else session.calls)
  }

  function StepIn(s: Sys, x: nat, session: Session, action: Action): Sys {
    match action
    case StartStream(_) =>
      if session.y.pc.Preparing? && session.grant.Nothing? then StepStream(s, x, session) else s
    case AdoptRingingCall(_, ep) =>
      if session.y.pc.Preparing? && session.grant.Nothing? then StepAdopt(s, x, session, ep) else s
    case Ready(_, answered) =>
      if session.grant.Nothing? then s
      else Set(s, x, StepSession(session, S.DialogReady(session.grant.Dialled?, answered)))
    case Runs(_, a) =>
      if a.DialogReady? || (a.StartCalled? && session.begun) then s else Set(s, x, StepSession(session, a))
    case HangsUp(_) =>
      if session.calls == 0 then s
      else Set(s.(m := M.Commit(s.m, M.HangupCall)), x, session.(calls := session.calls - 1))
    case _ => s
  }

  /** Inbound dialogs are new objects, and StartStream alone dials. */
  predicate Allowed(s: Sys, op: M.Op) {
    M.Callable(s.m, op) && !op.Dial? && (op.Invite? ==> op.dialog.obj == s.nextObj)
  }

  function Step(s: Sys, action: Action): Sys {
    match action
    case NewSession(x) => if x in s.sessions then s else Set(s, x, BORN)
    case Manage(op) =>
      if !Allowed(s, op) then s
      else s.(m := M.Commit(s.m, op), nextObj := if op.Invite? then s.nextObj + 1 else s.nextObj)
    case _ => if action.x in s.sessions then StepIn(s, action.x, s.sessions[action.x], action) else s
  }

  function Reach(actions: seq<Action>): Sys {
    if actions == [] then START else Step(Reach(actions[..|actions| - 1]), actions[|actions| - 1])
  }

  predicate Held(m: M.State, d: M.Dialog) {
    m.active == Some(d) || m.incoming == Some(d)
  }

  /** What takes an active dialog: the user's hangup, a media hangup by a session or otherwise, and the
      news that a peer ended its call. */
  predicate TakesActive(s: Sys, action: Action) {
    || (action.Manage? && (action.op.Hangup? || action.op.HangupCall? || action.op.RemoteDialogEnded?))
    || (action.HangsUp? && action.x in s.sessions && s.sessions[action.x].calls > 0)
  }

  /** What takes a pending dialog, short of its answer. */
  predicate TakesIncoming(s: Sys, action: Action) {
    action.Manage? && (action.op.Decline? || action.op.Hangup?
                       || (action.op.ClearIncoming? && M.Takes(s.m, action.op.expected)))
  }

  predicate Takes(s: Sys, action: Action, d: M.Dialog) {
    (s.m.active == Some(d) && TakesActive(s, action)) || (s.m.incoming == Some(d) && TakesIncoming(s, action))
  }

  /** The run let go of a dialog by one of these actions. */
  predicate LetGo(actions: seq<Action>, d: M.Dialog) {
    actions != [] &&
    (LetGo(actions[..|actions| - 1], d) || Takes(Reach(actions[..|actions| - 1]), actions[|actions| - 1], d))
  }

  /** What the dialogs of a state are numbered below. */
  ghost predicate ManagerInv(s: Sys) {
    && M.Valid(s.m)
    && (s.m.active.Some? ==> s.m.active.value.obj < s.nextObj)
    && (s.m.incoming.Some? ==> s.m.incoming.value.obj < s.nextObj)
  }

  ghost predicate SessionInv(session: Session, nextObj: nat) {
    && S.Inv(session.y)
    && (!session.grant.Nothing? ==> session.grant.dialog.obj < nextObj)
    && (session.y.s.ownsDialog ==> session.grant.Dialled?)
    && (!session.begun ==> session.y.pc.NotRunning? && session.grant.Nothing? && !session.y.sip)
    && (session.y.sip ==> !session.grant.Nothing?)
    && (session.y.hangups > 0 || session.calls > 0 ==> session.y.sip)
  }

  ghost predicate Inv(s: Sys) {
    ManagerInv(s) && forall x <- s.sessions :: SessionInv(s.sessions[x], s.nextObj)
  }

  lemma SessionStepKeeps(session: Session, nextObj: nat, a: S.Action)
    requires SessionInv(session, nextObj) && !(a.StartCalled? && session.begun)
    requires a.DialogReady? ==> !session.grant.Nothing? && a.owns == session.grant.Dialled?
    ensures SessionInv(StepSession(session, a), nextObj)
  {
    S.StepKeepsInv(session.y, a);
    HangupsNeedDialog(session.y, a);
  }

  lemma HangupsNeedDialog(y: S.Sys, a: S.Action)
    requires S.Inv(y)
    ensures S.Step(y, a).hangups > y.hangups ==> S.Step(y, a).sip && y.sip
    ensures !a.StartCalled? && !a.DialogReady? ==> S.Step(y, a).sip == y.sip && S.Step(y, a).s.ownsDialog == y.s.ownsDialog
  {
    match a
    case StartGoesOn(_) =>
    case _ =>
  }

  lemma StepInKeepsInv(s: Sys, x: nat, session: Session, action: Action)
    requires Inv(s) && x in s.sessions && s.sessions[x] == session
    ensures Inv(StepIn(s, x, session, action))
  {
    match action
    case StartStream(_) => M.CommitKeepsValid(s.m, M.Dial(M.Outbound(s.nextObj)));
    case Ready(_, answered) =>
      if !session.grant.Nothing? {
        SessionStepKeeps(session, s.nextObj, S.DialogReady(session.grant.Dialled?, answered));
      }
    case Runs(_, a) =>
      if !a.DialogReady? && !(a.StartCalled? && session.begun) { SessionStepKeeps(session, s.nextObj, a); }
    case HangsUp(_) => M.CommitKeepsValid(s.m, M.HangupCall);
    case _ =>
  }

  lemma ManageKeepsInv(s: Sys, op: M.Op)
    requires Inv(s) && Allowed(s, op)
    ensures Inv(Step(s, Manage(op)))
  {
    M.CommitKeepsValid(s.m, op);
    NothingNewHeld(s.m, op);
  }

  /** A commit holds what was held before, or the dialog of an INVITE. */
  lemma NothingNewHeld(m: M.State, op: M.Op)
    requires M.Valid(m) && !op.Dial?
    ensures
      var n := M.Commit(m, op);
      && (n.active.Some? ==> Held(m, n.active.value))
      && (n.incoming.Some? ==> n.incoming == m.incoming || (op.Invite? && n.incoming.value == op.dialog))
  {
  }

  lemma StepKeepsInv(s: Sys, action: Action)
    requires Inv(s)
    ensures Inv(Step(s, action))
  {
    match action
    case NewSession(_) =>
    case Manage(op) => if Allowed(s, op) { ManageKeepsInv(s, op); }
    case _ => if action.x in s.sessions { StepInKeepsInv(s, action.x, s.sessions[action.x], action); }
  }

  lemma {:induction false} ReachInv(actions: seq<Action>)
    ensures Inv(Reach(actions))
  {
    if actions != [] {
      ReachInv(actions[..|actions| - 1]);
      StepKeepsInv(Reach(actions[..|actions| - 1]), actions[|actions| - 1]);
    }
  }

  // ----- Who takes a dialog -----

  /** A commit lets go of a dialog exactly if it takes it. */
  lemma CommitLetsGo(s: Sys, op: M.Op, d: M.Dialog)
    requires M.Valid(s.m) && Allowed(s, op) && Held(s.m, d)
    ensures Held(M.Commit(s.m, op), d) <==> !Takes(s, Manage(op), d)
  {
  }

  lemma HangupTakes(m: M.State, d: M.Dialog)
    requires M.Valid(m)
    ensures Held(M.Commit(m, M.HangupCall), d) <==> m.incoming == Some(d)
    ensures M.Commit(m, M.HangupCall).active.None?
  {
  }

  lemma DialHolds(m: M.State, e: M.Dialog, d: M.Dialog)
    requires M.Valid(m) && m.incoming.None? && m.active.None?
    ensures M.Commit(m, M.Dial(e)).active == Some(e) && M.Commit(m, M.Dial(e)).incoming.None?
  {
  }

  /** Exactly the taking actions let a held dialog go, and one let go is never held again. */
  lemma StepLetsGo(s: Sys, action: Action, d: M.Dialog)
    requires Inv(s) && d.obj < s.nextObj
    ensures Held(Step(s, action).m, d) <==> Held(s.m, d) && !Takes(s, action, d)
  {
    match action
    case NewSession(_) =>
    case Manage(op) =>
      if Allowed(s, op) {
        NothingNewHeld(s.m, op);
        if Held(s.m, d) { CommitLetsGo(s, op, d); }
      } else {
        NotAllowedTakesNothing(s, op);
      }
    case StartStream(_) => if s.m.incoming.None? && s.m.active.None? { DialHolds(s.m, M.Outbound(s.nextObj), d); }
    case HangsUp(_) => HangupTakes(s.m, d);
    case _ =>
  }

  lemma NotAllowedTakesNothing(s: Sys, op: M.Op)
    requires !Allowed(s, op)
    ensures op.Invite? || op.Dial? || op.AnswerCommit?
  {
  }

  /** A session's dialog is held until the run lets it go. */
  lemma {:induction false} GrantIsHeld(actions: seq<Action>, x: nat)
    requires x in Reach(actions).sessions && !Reach(actions).sessions[x].grant.Nothing?
    ensures
      var s := Reach(actions);
      Held(s.m, s.sessions[x].grant.dialog) <==> !LetGo(actions, s.sessions[x].grant.dialog)
  {
    var before, last := actions[..|actions| - 1], actions[|actions| - 1];
    ReachInv(before);
    var s, n := Reach(before), Step(Reach(before), last);
    var d := n.sessions[x].grant.dialog;
    if x in s.sessions && !s.sessions[x].grant.Nothing? {
      GrantIsHeld(before, x);
      GrantStays(s, last, x);
      StepLetsGo(s, last, d);
    } else {
      NewGrantIsHeld(s, last, x);
      NeverLetGo(before, d);
    }
  }

  lemma GrantStays(s: Sys, action: Action, x: nat)
    requires x in s.sessions && !s.sessions[x].grant.Nothing?
    ensures x in Step(s, action).sessions && Step(s, action).sessions[x].grant == s.sessions[x].grant
  {
  }

  /** What a session is granted is held, and was before or is new; granting takes nothing. */
  lemma NewGrantIsHeld(s: Sys, action: Action, x: nat)
    requires Inv(s) && x in Step(s, action).sessions && !Step(s, action).sessions[x].grant.Nothing?
    requires x !in s.sessions || s.sessions[x].grant.Nothing?
    ensures
      var n := Step(s, action);
      var d := n.sessions[x].grant.dialog;
      Held(n.m, d) && (Held(s.m, d) || d.obj >= s.nextObj) && !Takes(s, action, d)
  {
    if action.StartStream? && s.m.incoming.None? && s.m.active.None? {
      DialHolds(s.m, M.Outbound(s.nextObj), M.Outbound(s.nextObj));
    }
  }

  lemma {:induction false} NeverLetGo(actions: seq<Action>, d: M.Dialog)
    requires Held(Reach(actions).m, d) || d.obj >= Reach(actions).nextObj
    ensures !LetGo(actions, d)
  {
    if actions != [] {
      var before := actions[..|actions| - 1];
      ReachInv(before);
      NumbersGrow(Reach(before), actions[|actions| - 1]);
      if d.obj < Reach(before).nextObj {
        StepLetsGo(Reach(before), actions[|actions| - 1], d);
      }
      NeverLetGo(before, d);
    }
  }

  lemma NumbersGrow(s: Sys, action: Action)
    ensures s.nextObj <= Step(s, action).nextObj
  {
  }

  /** A session's HangupCall ends the call the session has, dialled or borrowed, until the run lets that
      one go (a pending one it leaves alone); from then on it ends another call exactly if one is up. */
  lemma {:induction false} HangupEndsAnother(actions: seq<Action>, x: nat)
    requires x in Reach(actions).sessions && Reach(actions).sessions[x].calls > 0
    ensures
      var s := Reach(actions);
      var grant := s.sessions[x].grant;
      && !grant.Nothing? && Step(s, HangsUp(x)).m.active.None? && Step(s, HangsUp(x)).m.incoming == s.m.incoming
      && (Held(s.m, grant.dialog) <==> !LetGo(actions, grant.dialog))
      && (s.m.active.Some? && s.m.active.value != grant.dialog <==> s.m.active.Some? && LetGo(actions, grant.dialog))
  {
    ReachInv(actions);
    GrantIsHeld(actions, x);
    var s := Reach(actions);
    HangupTakes(s.m, s.sessions[x].grant.dialog);
    assert SessionInv(s.sessions[x], s.nextObj);
    assert M.Commit(s.m, M.HangupCall).incoming == s.m.incoming;
  }

  lemma Extend(actions: seq<Action>, action: Action) returns (longer: seq<Action>, s: Sys)
    ensures longer == actions + [action] && s == Reach(longer) == Step(Reach(actions), action)
  {
    longer := actions + [action];
    assert longer[..|actions|] == actions;
    s := Reach(longer);
  }

  const PREVIEW := M.Outbound(0)
  const CALL := M.Inbound(1, "call")

  /** A session with a dialog of its own, before and after its start has ended. */
  const PREPARING := Session(S.START.(s := S.INITIAL.(starting := true), pc := S.Preparing), true, Nothing, 0)
  const OWNING := Session(S.Sys(S.INITIAL.(started := true, ownsDialog := true), S.NotRunning, false, true, 0, 0, 0, false),
                          true, Dialled(PREVIEW), 0)

  lemma SessionPrepares() returns (a: seq<Action>)
    ensures Reach(a) == Sys(M.INITIAL, 0, map[0 := PREPARING])
  {
    var s;
    a, s := Extend([], NewSession(0));
    assert s.sessions == map[0 := BORN];
    a, s := Extend(a, Runs(0, S.StartCalled));
    assert s.sessions == map[0 := PREPARING];
  }

  lemma DialledState()
    ensures M.Commit(M.INITIAL, M.Dial(PREVIEW)) == M.INITIAL.(active := Some(PREVIEW))
  {
  }

  lemma PreviewDialled() returns (a: seq<Action>)
    ensures Reach(a) == Sys(M.INITIAL.(active := Some(PREVIEW)), 1, map[0 := PREPARING.(grant := Dialled(PREVIEW))])
  {
    var s;
    a := SessionPrepares();
    DialledState();
    a, s := Extend(a, StartStream(0));
    assert s.sessions == map[0 := PREPARING.(grant := Dialled(PREVIEW))];
  }

  lemma PreviewStarted() returns (a: seq<Action>)
    ensures Reach(a) == Sys(M.INITIAL.(active := Some(PREVIEW)), 1, map[0 := OWNING])
  {
    var s;
    a := PreviewDialled();
    a, s := Extend(a, Ready(0, true));
    assert s.sessions[0].y.pc == S.Activating(true);
    a, s := Extend(a, Runs(0, S.StartGoesOn(true)));
    assert s.sessions[0].y.pc == S.Ending(true);
    a, s := Extend(a, Runs(0, S.StartGoesOn(true)));
    assert s.sessions[0] == OWNING;
    assert s.sessions == map[0 := OWNING];
  }

  lemma PreviewHungUp() returns (a: seq<Action>)
    ensures Reach(a) == Sys(M.INITIAL, 1, map[0 := OWNING])
  {
    var s;
    a := PreviewStarted();
    a, s := Extend(a, Manage(M.Hangup));
  }

  /** The user hangs the preview up, and a call comes in and is answered meanwhile. */
  lemma CallAnswered() returns (a: seq<Action>)
    ensures var s := Reach(a); s.sessions == map[0 := OWNING] && s.m.active == Some(CALL) && s.m.activeIncoming
  {
    var s;
    a := PreviewHungUp();
    a, s := Extend(a, Manage(M.Invite(CALL, "door", "20")));
    assert s.m.incoming == Some(CALL) && s.m.incomingEntrypoint == "door" && s.m.active.None?;
    a, s := Extend(a, Manage(M.AnswerCommit(CALL, "door")));
  }

  /** It does happen: closing the preview's session then hangs the answered call up. */
  lemma AnsweredCallIsHungUp() returns (a: seq<Action>)
    ensures
      var s := Reach(a);
      s.m.active.None? && 0 in s.sessions && s.sessions[0].y.hangups == 1 && LetGo(a, CALL)
  {
    var s;
    a := CallAnswered();
    a, s := Extend(a, Runs(0, S.CloseCalled));
    assert s.sessions[0].calls == 1 && s.sessions[0].y.hangups == 1 && s.m.active == Some(CALL);
    var before := a;
    a, s := Extend(a, HangsUp(0));
    assert a[..|a| - 1] == before;
  }
}
