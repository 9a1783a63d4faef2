/** One media source's session and the SIP dialog behind it (internal/media/source_session.go).

    `Start` runs on a goroutine of its own and takes several locked sections; Close, EndCallOnClose,
    Answered and the far end's BYE come in between.  A session hangs a call up (`HangupCall`) or
    reports it ended by the peer (`RemoteDialogEnded`) only from those sections. */
module SourceSession {
  datatype State = State(
    started: bool,
    starting: bool,
    remoteEnded: bool,
    terminating: bool,
    ownsDialog: bool,
    endCallOnClose: bool,
    ringingPreview: bool,
    ringing: bool)

  const INITIAL := State(false, false, false, false, false, false, false, false)

  function Begin(s: State): State {
    if s.started || s.starting then s
    else State(false, true, false, false, false, false, s.ringingPreview, false)
  }

  predicate FailureHangsUp(s: State, sipStarted: bool) {
    sipStarted && s.ownsDialog && !s.remoteEnded && !s.terminating
  }

  predicate FailureReports(s: State, sipStarted: bool) {
    sipStarted && s.remoteEnded && !s.terminating
  }

  function Fail(s: State, sipStarted: bool): State {
    if FailureHangsUp(s, sipStarted) then s.(terminating := true) else s
  }

  predicate CloseHangsUp(s: State) {
    s.started && !s.starting && !s.remoteEnded && !s.terminating && (s.ownsDialog || s.endCallOnClose)
  }

  function Close(s: State): State {
    if s.starting || !s.started then s
    else s.(started := false, terminating := s.terminating || CloseHangsUp(s))
  }

  predicate PeerEndReports(s: State) {
    !s.starting && s.started
  }

  function PeerEnds(s: State): State {
    if PeerEndReports(s) then s.(remoteEnded := true, started := false) else s.(remoteEnded := true)
  }

  class Session {
    var started: bool
    var starting: bool
    var remoteEnded: bool
    var terminating: bool
    var ownsDialog: bool
    var endCallOnClose: bool
    var ringingPreview: bool
    var ringing: bool

    ghost function View(): State
      reads this
    {
      State(started, starting, remoteEnded, terminating, ownsDialog, endCallOnClose, ringingPreview, ringing)
    }

    constructor ()
      ensures View() == INITIAL
    {
      started, starting, remoteEnded, terminating := false, false, false, false;
      ownsDialog, endCallOnClose, ringingPreview, ringing := false, false, false, false;
    }

    /** The first section of Start. */
    method BeginStart() returns (begun: bool)
      modifies this
      ensures View() == Begin(old(View()))
      ensures begun <==> !old(started) && !old(starting)
    {
      if started || starting { return false; }
      starting := true;
      remoteEnded, terminating, ownsDialog, endCallOnClose, ringing := false, false, false, false, false;
      begun := true;
    }

    /** The cleanup of a failed Start: the call goes with it only if this session dialled it and the
        peer has not ended it first. */
    method FailStart(sipStarted: bool) returns (hangup: bool, report: bool)
      modifies this`terminating
      ensures View() == Fail(old(View()), sipStarted)
      ensures hangup == FailureHangsUp(old(View()), sipStarted)
      ensures report == FailureReports(old(View()), sipStarted)
    {
      hangup := sipStarted && ownsDialog && !remoteEnded && !terminating;
      report := sipStarted && remoteEnded && !terminating;
      if hangup {
        terminating := true;
      }
    }

    method EndStart(succeeded: bool)
      modifies this`started, this`starting
      ensures View() == old(View()).(started := succeeded, starting := false)
    {
      started := succeeded;
      starting := false;
    }

    method SetEndCallOnClose()
      modifies this`endCallOnClose
      ensures View() == old(View()).(endCallOnClose := true)
    {
      endCallOnClose := true;
    }

    method PrepareRingingPreview()
      modifies this`ringingPreview
      ensures View() == old(View()).(ringingPreview := true)
    {
      ringingPreview := true;
    }

    /** Close of a session that is not starting; a starting one is cancelled and left to Start. */
    method CloseSession() returns (cancel: bool, hangup: bool)
      modifies this
      ensures View() == Close(old(View()))
      ensures cancel == old(starting) && hangup == CloseHangsUp(old(View()))
    {
      if starting { return true, false; }
      if !started { return false, false; }
      started := false;
      hangup := !remoteEnded && !terminating && (ownsDialog || endCallOnClose);
      if hangup {
        terminating := true;
      }
      cancel := false;
    }

    /** The far end's BYE: never answered with one. */
    method RemoteDialogEnded() returns (cancel: bool, report: bool)
      modifies this
      ensures View() == PeerEnds(old(View()))
      ensures cancel == old(starting) && report == PeerEndReports(old(View()))
    {
      remoteEnded := true;
      if starting { return true, false; }
      if !started { return false, false; }
      started := false;
      cancel, report := false, true;
    }
  }

  // ----- All interleavings of one session -----

  datatype Pc =
    | NotRunning
    | Preparing                     // receivers starting, no dialog yet
    | Activating(answered: bool)    // the dialog is there, media being requested
    | Failing(sipStarted: bool)     // about to clean up
    | Ending(succeeded: bool)       // about to leave `starting`

  /** `hangups` and `reports` count the HangupCall and RemoteDialogEnded calls of the current Start,
      `borrowedHangups` all hangups of a dialog the session does not own, and `asked` says
      EndCallOnClose was ever called. */
  datatype Sys = Sys(
    s: State,
    pc: Pc,
    cancelled: bool,
    sip: bool,
    hangups: nat,
    reports: nat,
    borrowedHangups: nat,
    asked: bool)

  const START := Sys(INITIAL, NotRunning, false, false, 0, 0, 0, false)

  datatype Action =
    | StartCalled
    | DialogReady(owns: bool, answered: bool)   // StartStream or AdoptRingingCall succeeded
    | StartGoesOn(ok: bool)
    | CloseCalled
    | PeerEndsCall
    | EndCallOnCloseCalled
    | PrepareCalled
    | AnsweredCalled(ok: bool)

  function Hangup(y: Sys): Sys {
    y.(hangups := y.hangups + 1,
       borrowedHangups := if y.s.ownsDialog then y.borrowedHangups else y.borrowedHangups + 1)
  }

  function Step(y: Sys, action: Action): Sys {
    match action
    case StartCalled =>
      if y.s.started || y.s.starting || !y.pc.NotRunning? then y
      else y.(s := Begin(y.s), pc := Preparing, cancelled := false, sip := false, hangups := 0, reports := 0)
    case DialogReady(owns, answered) =>
      if !y.pc.Preparing? then y
      else y.(s := y.s.(ownsDialog := owns), sip := true, pc := Activating(answered))
    case StartGoesOn(ok) =>
      (match y.pc
       case NotRunning => y
       case Preparing => if ok then y else y.(pc := Failing(false))
       case Activating(answered) =>
         if !ok || y.cancelled then y.(pc := Failing(true))
         else y.(s := y.s.(ringing := !answered), pc := Ending(true))
       case Failing(sipStarted) =>
         var n := if FailureHangsUp(y.s, sipStarted) then Hangup(y) else y;
         n.(s := Fail(y.s, sipStarted), pc := Ending(false),
            reports := if FailureReports(y.s, sipStarted) then y.reports + 1 else y.reports)
       case Ending(succeeded) => y.(s := y.s.(started := succeeded, starting := false), pc := NotRunning))
    case CloseCalled =>
      var n := if CloseHangsUp(y.s) then Hangup(y) else y;
      n.(s := Close(y.s), cancelled := y.cancelled || y.s.starting)
    case PeerEndsCall =>
      y.(s := PeerEnds(y.s), cancelled := y.cancelled || y.s.starting,
         reports := if PeerEndReports(y.s) then y.reports + 1 else y.reports)
    case EndCallOnCloseCalled => y.(s := y.s.(endCallOnClose := true), asked := true)
    case PrepareCalled => y.(s := y.s.(ringingPreview := true))
    case AnsweredCalled(ok) =>
      if y.s.started && y.s.ringing && ok then y.(s := y.s.(ringing := false)) else y
  }

  function RunFrom(y: Sys, actions: seq<Action>): Sys {
    if actions == [] then y else Step(RunFrom(y, actions[..|actions| - 1]), actions[|actions| - 1])
  }

  function Reach(actions: seq<Action>): Sys {
    RunFrom(START, actions)
  }

  ghost predicate Inv(y: Sys) {
    && (y.s.starting <==> !y.pc.NotRunning?)
    && !(y.s.started && y.s.starting)
    && (y.s.endCallOnClose ==> y.asked)
    && (y.pc.Preparing? || y.pc == Failing(false) ==> !y.sip)
    && (y.pc.Activating? || y.pc == Failing(true) || y.pc == Ending(true) || y.s.started ==> y.sip)
    && (y.s.terminating <==> y.hangups == 1)
    && y.hangups + y.reports <= 1
    && (y.s.started || (y.s.starting && !y.pc.Ending?) || y.pc == Ending(true) ==> y.hangups + y.reports == 0)
    && (y.reports == 1 ==> y.s.remoteEnded)
    && (y.borrowedHangups > 0 ==> y.asked)
  }

  lemma StepKeepsInv(y: Sys, action: Action)
    requires Inv(y)
    ensures Inv(Step(y, action))
  {
  }

  lemma {:induction false} ReachInv(actions: seq<Action>)
    ensures Inv(Reach(actions))
  {
    if actions != [] {
      ReachInv(actions[..|actions| - 1]);
      StepKeepsInv(Reach(actions[..|actions| - 1]), actions[|actions| - 1]);
    }
  }

  /** Each Start hangs up or reports the end of its call at most once in all, and a call the session
      only borrowed is hung up only after EndCallOnClose. */
  lemma {:induction false} EndedAtMostOnce(actions: seq<Action>)
    ensures
      var y := Reach(actions);
      y.hangups + y.reports <= 1 && (y.borrowedHangups > 0 ==> y.asked)
  {
    ReachInv(actions);
  }

  predicate SameStart(actions: seq<Action>) {
    forall i | 0 <= i < |actions| :: !actions[i].StartCalled?
  }

  /** Once the peer ended the call, nothing this Start does ever hangs it up, whatever comes. */
  lemma {:induction false} NoHangupAfterPeerEnd(y: Sys, more: seq<Action>)
    requires y.s.remoteEnded && SameStart(more)
    ensures RunFrom(y, more).s.remoteEnded && RunFrom(y, more).hangups == y.hangups
  {
    if more != [] {
      NoHangupAfterPeerEnd(y, more[..|more| - 1]);
      EndedStaysEnded(RunFrom(y, more[..|more| - 1]), more[|more| - 1]);
    }
  }

  lemma EndedStaysEnded(y: Sys, action: Action)
    requires y.s.remoteEnded && !action.StartCalled?
    ensures Step(y, action).s.remoteEnded && Step(y, action).hangups == y.hangups && (y.sip ==> Step(y, action).sip)
  {
    match action
    case CloseCalled => assert !CloseHangsUp(y.s);
    case StartGoesOn(ok) => assert y.pc.Failing? ==> !FailureHangsUp(y.s, y.pc.sipStarted);
    case _ =>
  }

  // ----- When the SIP layer hears of the peer's BYE -----

  /** One BYE is one event: the rest of this Start, without another. */
  predicate RestOfStart(actions: seq<Action>) {
    SameStart(actions) && forall i | 0 <= i < |actions| :: !actions[i].PeerEndsCall?
  }

  /** Start has still to look at its context, or is cleaning up. */
  predicate StillLooks(y: Sys) {
    y.s.starting && !y.pc.Ending?
  }

  /** A BYE that a Start will still see: it ends in a report exactly if there is a dialog by then. */
  ghost predicate WillTell(n: Sys, reports: nat) {
    && n.s.remoteEnded && !n.s.terminating && !n.s.started
    && (n.pc.Preparing? || n.pc.Activating? ==> n.cancelled && n.s.starting)
    && n.pc != Ending(true)
    && (n.pc.Failing? ==> n.pc.sipStarted == n.sip)
    && (n.pc.Preparing? ==> !n.sip) && (n.pc.Activating? ==> n.sip)
    && n.reports == reports + (if n.sip && (n.pc.Ending? || n.pc.NotRunning?) then 1 else 0)
  }

  lemma SeenByeStep(y: Sys, action: Action, reports: nat)
    requires WillTell(y, reports) && !action.StartCalled? && !action.PeerEndsCall?
    ensures WillTell(Step(y, action), reports)
  {
  }

  lemma {:induction false} SeenByeIsTold(y: Sys, more: seq<Action>, reports: nat)
    requires WillTell(y, reports) && RestOfStart(more)
    ensures WillTell(RunFrom(y, more), reports)
  {
    if more != [] {
      SeenByeIsTold(y, more[..|more| - 1], reports);
      SeenByeStep(RunFrom(y, more[..|more| - 1]), more[|more| - 1], reports);
    }
  }

  /** A BYE that no Start looks for any more: nobody is told, whatever comes before the next Start. */
  ghost predicate WillNotTell(n: Sys, reports: nat, hangups: nat) {
    n.s.remoteEnded && (n.pc.Ending? || n.pc.NotRunning?) && n.reports == reports && n.hangups == hangups
  }

  lemma UnseenByeStep(y: Sys, action: Action, reports: nat, hangups: nat)
    requires WillNotTell(y, reports, hangups) && !action.StartCalled? && !action.PeerEndsCall?
    ensures WillNotTell(Step(y, action), reports, hangups)
  {
  }

  lemma {:induction false} UnseenByeIsMissed(y: Sys, more: seq<Action>, reports: nat, hangups: nat)
    requires WillNotTell(y, reports, hangups) && RestOfStart(more)
    ensures WillNotTell(RunFrom(y, more), reports, hangups)
  {
    if more != [] {
      UnseenByeIsMissed(y, more[..|more| - 1], reports, hangups);
      UnseenByeStep(RunFrom(y, more[..|more| - 1]), more[|more| - 1], reports, hangups);
    }
  }

  /** Whenever the peer's first BYE comes, the SIP layer has been told of it by the end of that Start
      exactly if the session was started, or its Start had still to look at its context and there is a
      dialog, which for a dialog already there means media being requested or the cleanup of a failed
      start. */
  lemma {:induction false} ByeIsTold(actions: seq<Action>, more: seq<Action>)
    requires !Reach(actions).s.remoteEnded && RestOfStart(more)
    requires RunFrom(Step(Reach(actions), PeerEndsCall), more).pc.NotRunning?
    ensures
      var y := Reach(actions);
      var n := RunFrom(Step(y, PeerEndsCall), more);
      && n.reports == y.reports + (if y.s.started || (StillLooks(y) && n.sip) then 1 else 0)
      && n.hangups == y.hangups
      && (y.s.starting && y.sip ==> (StillLooks(y) <==> y.pc.Activating? || y.pc == Failing(true)))
      && (y.s.starting && y.sip ==> n.sip)
  {
    ReachInv(actions);
    var y := Reach(actions);
    NoHangupAfterPeerEnd(Step(y, PeerEndsCall), more);
    SipStays(Step(y, PeerEndsCall), more);
    if StillLooks(y) {
      SeenByeIsTold(Step(y, PeerEndsCall), more, y.reports);
    } else {
      var b := Step(y, PeerEndsCall);
      UnseenByeIsMissed(b, more, b.reports, b.hangups);
    }
  }

  lemma {:induction false} SipStays(y: Sys, more: seq<Action>)
    requires SameStart(more) && y.s.remoteEnded
    ensures y.sip ==> RunFrom(y, more).sip
  {
    if more != [] {
      SipStays(y, more[..|more| - 1]);
      NoHangupAfterPeerEnd(y, more[..|more| - 1]);
      EndedStaysEnded(RunFrom(y, more[..|more| - 1]), more[|more| - 1]);
    }
  }

  // ----- When Close ends the call -----

  /** Closing a started session ends its call, if that is its own or its last consumer let go, exactly
      when no BYE of the peer reached the session before. */
  lemma {:induction false} CloseTellsSip(actions: seq<Action>)
    requires Reach(actions).s.started && (Reach(actions).s.ownsDialog || Reach(actions).s.endCallOnClose)
    ensures
      var y, n := Reach(actions), Step(Reach(actions), CloseCalled);
      && !n.s.started && y.hangups + y.reports == 0
      && n.hangups == (if y.s.remoteEnded then 0 else 1) && n.reports == 0
  {
    ReachInv(actions);
  }

  /** Actions up to the very end of a Start, without a BYE of the peer. */
  ghost predicate EndsStart(y: Sys, actions: seq<Action>) {
    && RunFrom(y, actions).pc.NotRunning?
    && (forall k | 0 <= k < |actions| :: !RunFrom(y, actions[..k]).pc.NotRunning?)
    && (forall i | 0 <= i < |actions| :: !actions[i].PeerEndsCall?)
  }

  /** A Close that the Start will still see: the call goes with the Start if it is the session's own. */
  ghost predicate WillHangUp(n: Sys, hangups: nat) {
    && n.cancelled && !n.s.remoteEnded && !n.s.started
    && (n.s.starting <==> !n.pc.NotRunning?)
    && (n.s.ownsDialog ==> n.sip)
    && n.pc != Ending(true)
    && (n.pc.Failing? ==> n.pc.sipStarted == n.sip)
    && (n.pc.Preparing? ==> !n.sip) && (n.pc.Activating? ==> n.sip)
    && (if n.pc.Ending? || n.pc.NotRunning? then n.hangups == hangups + (if n.s.ownsDialog then 1 else 0)
        else !n.s.terminating && n.hangups == hangups)
  }

  lemma SeenCloseStep(y: Sys, action: Action, hangups: nat)
    requires WillHangUp(y, hangups) && !y.pc.NotRunning? && !action.PeerEndsCall?
    ensures WillHangUp(Step(y, action), hangups)
  {
    match action
    case CloseCalled => assert !CloseHangsUp(y.s);
    case StartGoesOn(ok) => assert y.pc.Failing? ==> (FailureHangsUp(y.s, y.pc.sipStarted) <==> y.s.ownsDialog);
    case _ =>
  }

  /** Past its last look a Start goes through as if there had been no Close. */
  ghost predicate WillStayUp(n: Sys, before: Sys)
    requires before.pc.Ending?
  {
    && n.hangups == before.hangups && n.reports == before.reports && n.s.ownsDialog == before.s.ownsDialog
    && (if n.pc.NotRunning? then !n.s.starting && n.s.started == before.pc.succeeded
        else n.s.starting && n.pc == before.pc && !n.s.started)
  }

  lemma UnseenCloseStep(y: Sys, action: Action, before: Sys)
    requires before.pc.Ending? && WillStayUp(y, before) && !y.pc.NotRunning? && !action.PeerEndsCall?
    ensures WillStayUp(Step(y, action), before)
  {
  }

  lemma {:induction false} CloseUntilEnd(y: Sys, more: seq<Action>, before: Sys)
    requires (forall k | 0 <= k < |more| :: !RunFrom(y, more[..k]).pc.NotRunning?)
    requires forall i | 0 <= i < |more| :: !more[i].PeerEndsCall?
    ensures WillHangUp(y, before.hangups) ==> WillHangUp(RunFrom(y, more), before.hangups)
    ensures before.pc.Ending? && WillStayUp(y, before) ==> WillStayUp(RunFrom(y, more), before)
  {
    if more != [] {
      var rest, last := more[..|more| - 1], more[|more| - 1];
      assert forall k | 0 <= k < |rest| :: rest[..k] == more[..k];
      CloseUntilEnd(y, rest, before);
      if WillHangUp(y, before.hangups) { SeenCloseStep(RunFrom(y, rest), last, before.hangups); }
      if before.pc.Ending? && WillStayUp(y, before) { UnseenCloseStep(RunFrom(y, rest), last, before); }
    }
  }

  /** A Close that comes while the session starts has ended the call by the end of that Start exactly if
      the Start had still to look at its context and the session has a dialog of its own by then.  Past
      that look the session is left started, its dialled call up, exactly if the Start succeeds. */
  lemma {:induction false} CloseDuringStartup(actions: seq<Action>, more: seq<Action>)
    requires Reach(actions).s.starting && !Reach(actions).s.remoteEnded
    requires EndsStart(Step(Reach(actions), CloseCalled), more)
    ensures
      var y := Reach(actions);
      var n := RunFrom(Step(y, CloseCalled), more);
      && n.hangups == y.hangups + (if StillLooks(y) && n.s.ownsDialog then 1 else 0)
      && (n.s.started <==> y.pc == Ending(true))
  {
    ReachInv(actions);
    ReachOwned(actions);
    var y := Reach(actions);
    CloseUntilEnd(Step(y, CloseCalled), more, y);
  }

  lemma {:induction false} ReachOwned(actions: seq<Action>)
    ensures var y := Reach(actions); y.s.ownsDialog ==> y.sip
    ensures var y := Reach(actions); y.pc.Failing? ==> y.pc.sipStarted == y.sip
  {
    if actions != [] {
      ReachInv(actions[..|actions| - 1]);
      ReachOwned(actions[..|actions| - 1]);
      OwnedStep(Reach(actions[..|actions| - 1]), actions[|actions| - 1]);
    }
  }

  lemma OwnedStep(y: Sys, action: Action)
    requires Inv(y) && (y.s.ownsDialog ==> y.sip) && (y.pc.Failing? ==> y.pc.sipStarted == y.sip)
    ensures var n := Step(y, action); (n.s.ownsDialog ==> n.sip) && (n.pc.Failing? ==> n.pc.sipStarted == n.sip)
  {
    match action
    case StartGoesOn(ok) => OwnedStartGoesOn(y, ok);
    case _ => assert !action.StartCalled? ==> Step(y, action).pc == y.pc || action.DialogReady?;
  }

  lemma OwnedStartGoesOn(y: Sys, ok: bool)
    requires Inv(y) && (y.s.ownsDialog ==> y.sip)
    ensures
      var n := Step(y, StartGoesOn(ok));
      n.sip == y.sip && n.s.ownsDialog == y.s.ownsDialog && (n.pc.Failing? ==> n.pc.sipStarted == n.sip)
  {
  }

  /** Such a late Close can come: the session ends up started on a call it dialled, and nobody was told
      to end it. */
  lemma LateCloseLeavesCallUp() returns (a: seq<Action>)
    ensures
      var y := Reach(a);
      y.s.started && y.s.ownsDialog && y.cancelled && y.hangups == 0 && y.reports == 0 && y.pc.NotRunning?
  {
    var y;
    a, y := Extend([], StartCalled);
    a, y := Extend(a, DialogReady(true, true));
    a, y := Extend(a, StartGoesOn(true));
    assert y.pc == Ending(true);
    a, y := Extend(a, CloseCalled);
    assert y.pc == Ending(true) && y.cancelled;
    a, y := Extend(a, StartGoesOn(true));
  }

  lemma Extend(actions: seq<Action>, action: Action) returns (longer: seq<Action>, y: Sys)
    ensures longer == actions + [action] && y == Reach(longer) == Step(Reach(actions), action)
  {
    longer := actions + [action];
    assert longer[..|actions|] == actions;
    y := Reach(longer);
  }

  /** Such a BYE can come: after Start's last look at its context, before it counts as started. */
  lemma LatePeerEndIsMissed() returns (a: seq<Action>)
    ensures
      var y := Reach(a);
      y.sip && y.s.ownsDialog && y.s.remoteEnded && !y.s.started && !y.s.starting && y.hangups == 0 && y.reports == 0
  {
    var y;
    a, y := Extend([], StartCalled);
    a, y := Extend(a, DialogReady(true, true));
    a, y := Extend(a, StartGoesOn(true));
    assert y.pc == Ending(true);
    a, y := Extend(a, PeerEndsCall);
    a, y := Extend(a, StartGoesOn(true));
    assert y.s.started && y.s.remoteEnded;
    a, y := Extend(a, CloseCalled);
  }

  // ----- What the flags stand for -----

  predicate Begins(y: Sys, action: Action) {
    action.StartCalled? && !y.s.started && !y.s.starting
  }

  /** Whether EndCallOnClose was called since the current Start began. */
  function AskedSince(actions: seq<Action>): bool {
    if actions == [] then false
    else
      var before, last := actions[..|actions| - 1], actions[|actions| - 1];
      last.EndCallOnCloseCalled? || (AskedSince(before) && !Begins(Reach(before), last))
  }

  /** Whether the current Start got video for a call not answered then, with no audio asked for since. */
  function VideoOnly(actions: seq<Action>): bool {
    if actions == [] then false
    else
      var before, last := actions[..|actions| - 1], actions[|actions| - 1];
      var y := Reach(before);
      if last == StartGoesOn(true) && y.pc.Activating? && !y.cancelled then !y.pc.answered
      else if Begins(y, last) || (last == AnsweredCalled(true) && y.s.started) then false
      else VideoOnly(before)
  }

  /** A session is told to end its call for the current Start alone, and waits for the answer exactly while
      it has video only. */
  lemma {:induction false} FlagsFollowStart(actions: seq<Action>)
    ensures Reach(actions).s.endCallOnClose <==> AskedSince(actions)
    ensures Reach(actions).s.ringing <==> VideoOnly(actions)
  {
    if actions != [] {
      var before := actions[..|actions| - 1];
      FlagsFollowStart(before);
      ReachInv(before);
      AskedStep(Reach(before), actions[|actions| - 1]);
      RingingStep(Reach(before), actions[|actions| - 1]);
    }
  }

  lemma AskedStep(y: Sys, action: Action)
    requires Inv(y)
    ensures Step(y, action).s.endCallOnClose <==>
              action.EndCallOnCloseCalled? || (y.s.endCallOnClose && !Begins(y, action))
  {
  }

  lemma RingingStep(y: Sys, action: Action)
    requires Inv(y)
    ensures Step(y, action).s.ringing <==>
              if action == StartGoesOn(true) && y.pc.Activating? && !y.cancelled then !y.pc.answered
              else y.s.ringing && !Begins(y, action) && !(action == AnsweredCalled(true) && y.s.started)
  {
  }
}
