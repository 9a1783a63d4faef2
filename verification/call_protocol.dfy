/** Every interleaving of the signaling manager, its dialogs, its callers and its event drain.

    A goroutine is a program counter between two locked sections.  `Step` runs one section of one
    goroutine, or starts one: an INVITE, a user's answer, decline or hangup, a media hangup, a
    dial, the expiry timer, a CANCEL or BYE from the far end, or a projector event of another
    source.  The sink may re-enter the manager: while a delivery is in flight every other action is
    enabled.  `Step` leaves the state alone when its action is not enabled. */
module CallProtocol {
  import opened Prelude
  import C = CoreState
  import A = IncomingDialog
  import opened M = SignalingManager

  datatype Pc =
    | Ring(dialog: Dialog)                              // OnInvite, about to send the 180
    | Rollback(dialog: Dialog)                          // OnInvite, its 180 failed
    | FinalClaim(dialog: Dialog, status: nat)           // about to conclude the dialog
    | FinalWrite(dialog: Dialog, status: nat)           // concluded it, response not yet written
    | AnswerClaim(dialog: Dialog, entrypoint: string)
    | AnswerWrite(dialog: Dialog, entrypoint: string)
    | AnswerDone(dialog: Dialog, entrypoint: string)    // the 200 OK went out
    | SendBye(dialog: Dialog)
    | Reject(dialog: Dialog)                            // Hangup, waiting for the bus decline
    | Expire(dialog: Dialog)                            // the expiry timer fired
    | Ended(dialog: Dialog, reason: C.CallEndReason)    // endPending claimed the dialog
    | PeerBye(dialog: Dialog)                           // the peer's BYE, about to tell the manager
    | Callback(dialog: Dialog)                          // the media callback of that BYE

  /** Where an accepted dialog is: active, in the hands of a goroutine that will make it active or
      send it a BYE, sent one, or dropped from the manager because `named` was ended by its peer. */
  datatype Place = Up | With(thread: nat) | Byed | Dropped(named: Dialog)

  datatype Drainer = Top | Delivering(event: C.Event)

  /** History: `place` is where each dialog is that the far end accepted, `byes` the BYEs sent, `peerEnded` the dialogs whose own peer sent a
      BYE, `strayed` the pending dialogs cleared by the CANCEL of another one, `committed` the events
      in commit order, and `delivered` those the projector has been given. */
  datatype Sys = Sys(
    m: State,
    adapters: map<nat, A.Dialog>,
    threads: map<nat, Pc>,
    nextThread: nat,
    nextObj: nat,
    drainers: seq<Drainer>,
    projector: C.State,
    place: map<Dialog, Place>,
    byes: multiset<Dialog>,
    peerEnded: set<Dialog>,
    strayed: set<Dialog>,
    committed: seq<C.Event>,
    delivered: seq<C.Event>)

  const START := Sys(M.INITIAL, map[], map[], 0, 0, [], C.INITIAL, map[], multiset{}, {}, {}, [], [])

  datatype Action =
    | OnInvite(callID: string, entrypoint: string, devAddr: string)
    | OnAnswer
    | OnDecline
    | OnHangup
    | OnHangupCall
    | OnPeerBye(dialog: Dialog)
    | OnDial
    | OnTimer
    | OnWithdraw(obj: nat, reason: C.CallEndReason)
    | Run(thread: nat, ok: bool)
    | Drain(drainer: nat)
    | OtherEvent(event: C.Event)

  function Spawn(s: Sys, pc: Pc): Sys {
    s.(threads := s.threads[s.nextThread := pc], nextThread := s.nextThread + 1)
  }

  function Goto(s: Sys, t: nat, pc: Pc): Sys {
    s.(threads := s.threads[t := pc])
  }

  function Finish(s: Sys, t: nat): Sys {
    s.(threads := s.threads - {t})
  }

  /** Commits an operation, starting a drain when the commit claimed one. */
  function Do(s: Sys, op: Op): Sys {
    s.(m := Commit(s.m, op),
       committed := s.committed + Opt(EventOf(s.m, op)),
       drainers := if !s.m.draining && Commit(s.m, op).draining then s.drainers + [Top] else s.drainers)
  }

  function SetAdapter(s: Sys, d: Dialog, a: A.Dialog): Sys {
    s.(adapters := s.adapters[d.obj := a])
  }

  function StepInvite(s: Sys, callID: string, entrypoint: string, devAddr: string): Sys {
    if callID == "" then s
    else
      var d := Inbound(s.nextObj, callID);
      var s := s.(nextObj := s.nextObj + 1, adapters := s.adapters[s.nextObj := A.Fresh(callID)]);
      if s.m.incoming.None? && s.m.active.None? && entrypoint != ""
      then Spawn(Do(s, Invite(d, entrypoint, devAddr)), Ring(d))
      else Spawn(s, FinalClaim(d, 486))
  }

  /** Hands the active dialog to a new goroutine that sends it a BYE. */
  function TakeActive(s: Sys, op: Op): Sys
    requires s.m.active.Some?
  {
    var d := s.m.active.value;
    Spawn(Do(s, op).(place := s.place[d := With(s.nextThread)]), SendBye(d))
  }

  function StepHangup(s: Sys): Sys {
    if s.m.active.Some? then TakeActive(s, Hangup)
    else if s.m.incoming.Some? then Spawn(Do(s, Hangup), Reject(s.m.incoming.value))
    else s
  }

  /** RemoteDialogEnded drops whatever is active; `named` is the dialog the peer's BYE was for. */
  function DropActive(s: Sys, named: Dialog): Sys {
    if s.m.active.None? then s
    else Do(s, RemoteDialogEnded).(place := s.place[s.m.active.value := Dropped(named)])
  }

  function SendsBye(s: Sys, d: Dialog): Sys {
    s.(byes := s.byes + multiset{d}, place := s.place[d := Byed])
  }

  /** EndIncoming matches no dialog, so it may clear a call other than the one withdrawn. */
  function StepEnded(s: Sys, t: nat, withdrawn: Dialog, reason: C.CallEndReason): Sys {
    var stray := if s.m.incoming.Some? && s.m.incoming.value != withdrawn then {s.m.incoming.value} else {};
    Finish(Do(s, ClearIncoming(None, reason)).(strayed := s.strayed + stray), t)
  }

  predicate IsAnswer(pc: Pc) {
    pc.AnswerClaim? || pc.AnswerWrite? || pc.AnswerDone?
  }

  /** The two ways a peer's BYE reaches the manager: told at once, and by the media callback, which may
      find nothing to report. */
  function StepNotice(s: Sys, t: nat, ok: bool): Sys
    requires t in s.threads
  {
    var d := s.threads[t].dialog;
    if s.threads[t].PeerBye? then Goto(DropActive(s, d), t, Callback(d))
    else Finish(if ok then DropActive(s, d) else s, t)
  }

  function StepAnswer(s: Sys, t: nat, d: Dialog, ep: string, a: A.Dialog, ok: bool): Sys
    requires t in s.threads
  {
    if s.threads[t].AnswerClaim? then
      if a.concluded then Finish(s, t)
      else Goto(SetAdapter(s, d, A.Claim(a, t, 200, "sdp")), t, AnswerWrite(d, ep))
    else if s.threads[t].AnswerWrite? then
      var s := SetAdapter(s, d, A.Write(a, 200));
      if ok then Goto(s.(place := s.place[d := With(t)]), t, AnswerDone(d, ep)) else Finish(s, t)
    else
      var next := Do(s, AnswerCommit(d, ep));
      if next.m.active == Some(d) then Finish(next.(place := s.place[d := Up]), t) else Goto(next, t, SendBye(d))
  }

  function StepBye(s: Sys, t: nat, d: Dialog): Sys {
    if d.Outbound? then Finish(SendsBye(s, d), t)
    else if d.obj !in s.adapters then s
    else Finish(SendsBye(SetAdapter(s, d, A.Bye(s.adapters[d.obj])), d), t)
  }

  function StepThread(s: Sys, t: nat, ok: bool): Sys
    requires t in s.threads
  {
    var pc := s.threads[t];
    if pc.PeerBye? || pc.Callback? then StepNotice(s, t, ok)
    else if pc.SendBye? then StepBye(s, t, pc.dialog)
    else if pc.dialog.obj !in s.adapters then s
    else
      var a := s.adapters[pc.dialog.obj];
      if IsAnswer(pc) then StepAnswer(s, t, pc.dialog, pc.entrypoint, a, ok) else StepResponse(s, t, a, ok)
  }

  function StepResponse(s: Sys, t: nat, a: A.Dialog, ok: bool): Sys
    requires t in s.threads
  {
    match s.threads[t]
    case Ring(d) =>
      var s := SetAdapter(s, d, A.Provisional(a, 180, ok));
      if a.concluded || !ok then Goto(s, t, Rollback(d)) else Finish(s, t)
    case Rollback(d) =>
      if Takes(s.m, Some(d)) then Goto(Do(s, ClearIncoming(Some(d), C.Cancelled)), t, FinalClaim(d, 500))
      else Finish(s, t)
    case FinalClaim(d, status) =>
      if a.concluded then Finish(s, t)
      else Goto(SetAdapter(s, d, A.Claim(a, t, status, "")), t, FinalWrite(d, status))
    case FinalWrite(d, status) => Finish(SetAdapter(s, d, A.Write(a, status)), t)
    case Reject(d) =>
      if ok && a.withdrawn then Finish(s, t) else Goto(s, t, FinalClaim(d, 603))
    case Expire(d) =>
      if Takes(s.m, Some(d)) then Goto(Do(s, ClearIncoming(Some(d), C.Timeout)), t, FinalClaim(d, 480))
      else Finish(s, t)
    case Ended(d, reason) => StepEnded(s, t, d, reason)
    case _ => s
  }

  function StepDrain(s: Sys, i: nat): Sys
    requires i < |s.drainers|
  {
    match s.drainers[i]
    case Top =>
      var next := s.(m := Pop(s.m));
      if s.m.pending == [] then next.(drainers := s.drainers[..i] + s.drainers[i + 1..])
      else next.(drainers := s.drainers[i := Delivering(s.m.pending[0])])
    case Delivering(e) =>
      s.(projector := C.Applied(s.projector, e), delivered := s.delivered + [e],
         drainers := s.drainers[i := Top])
  }

  function Step(s: Sys, action: Action): Sys {
    match action
    case OnInvite(callID, ep, dev) => StepInvite(s, callID, ep, dev)
    case OnAnswer =>
      if s.m.incoming.None? then s
      else Spawn(s, AnswerClaim(s.m.incoming.value, s.m.incomingEntrypoint))
    case OnDecline =>
      if s.m.incoming.None? then s
      else Spawn(Do(s, Decline), FinalClaim(s.m.incoming.value, 603))
    case OnHangup => StepHangup(s)
    case OnHangupCall =>
      if s.m.active.None? then s else TakeActive(s, HangupCall)
    case OnPeerBye(d) =>
      if d !in s.place || d in s.peerEnded then s
      else Spawn(s.(peerEnded := s.peerEnded + {d}), if d.Inbound? then PeerBye(d) else Callback(d))
    case OnDial =>
      if s.m.incoming.Some? || s.m.active.Some? then s
      else
        var d := Outbound(s.nextObj);
        Do(s, Dial(d)).(nextObj := s.nextObj + 1, place := s.place[d := Up])
    case OnTimer =>
      if s.m.incomingExpiry.None? || s.m.incomingExpiry.value.fired then s
      else Spawn(Do(s, TimerFires), Expire(s.m.incomingExpiry.value.dialog))
    case OnWithdraw(obj, reason) =>
      if obj !in s.adapters || !A.CanEndPending(s.adapters[obj]) then s
      else
        var d := Inbound(obj, s.adapters[obj].id);
        Spawn(SetAdapter(s, d, A.EndPending(s.adapters[obj])), Ended(d, Normalized(reason)))
    case Run(t, ok) => if t in s.threads then StepThread(s, t, ok) else s
    case Drain(i) => if i < |s.drainers| then StepDrain(s, i) else s
    case OtherEvent(e) => if C.IsCallEvent(e) then s else s.(projector := C.Applied(s.projector, e))
  }

  function Reach(actions: seq<Action>): Sys {
    if actions == [] then START else Step(Reach(actions[..|actions| - 1]), actions[|actions| - 1])
  }

  // ----- Invariants -----

  function InFlight(s: Sys): seq<C.Event> {
    if |s.drainers| > 0 && s.drainers[0].Delivering? then [s.drainers[0].event] else []
  }

  /** Exactly-once, in-order delivery: one drainer at most, and it alone owns a nonempty queue. */
  ghost predicate QueueInv(s: Sys) {
    && |s.drainers| == (if s.m.draining then 1 else 0)
    && (s.m.pending != [] ==> s.m.draining)
    && s.delivered + InFlight(s) + s.m.pending == s.committed
  }

  /** The undelivered events take the projected calls to the manager's, none of them rejected. */
  ghost predicate AgreeInv(s: Sys) {
    var folded := C.FoldCalls(C.CallsOf(s.projector), InFlight(s) + s.m.pending);
    folded.Some? && Agrees(folded.value, s.m)
  }

  ghost predicate Known(s: Sys, d: Dialog) {
    && d.obj < s.nextObj
    && (d.Inbound? <==> d.obj in s.adapters)
    && (d.Inbound? ==> s.adapters[d.obj].id == d.id && d.id != "")
  }

  ghost predicate IdentityInv(s: Sys) {
    && Valid(s.m)
    && (forall obj <- s.adapters :: obj < s.nextObj && s.adapters[obj].id != "")
    && (forall t <- s.threads :: t < s.nextThread && Known(s, s.threads[t].dialog))
    && (s.m.incoming.Some? ==> Known(s, s.m.incoming.value))
    && (s.m.active.Some? ==> Known(s, s.m.active.value) && s.m.active.value in s.place)
    && (forall d <- s.place :: Known(s, d))
  }

  /** Where each goroutine stands. */
  ghost predicate PcInv(s: Sys, t: nat, pc: Pc) {
    && (!pc.SendBye? && !pc.Callback? ==> pc.dialog.Inbound? && pc.dialog.obj in s.adapters)
    && (IsAnswer(pc) ==> s.m.incoming == Some(pc.dialog) ==> pc.entrypoint == s.m.incomingEntrypoint)
    && (pc.FinalWrite? || pc.AnswerWrite? ==> A.MayWrite(s.adapters[pc.dialog.obj], t))
    && (pc.AnswerDone? || pc.Ended? ==> s.adapters[pc.dialog.obj].concluded)
    && (pc.PeerBye? || pc.Callback? ==> pc.dialog in s.peerEnded)
    && (pc.FinalClaim? || pc.FinalWrite? ==> pc.status >= 200)
    && (Holding(pc) && pc.dialog.obj in s.adapters ==> !A.NoFinal(s.adapters[pc.dialog.obj].sent))
  }

  predicate Writing(pc: Pc) {
    pc.FinalWrite? || pc.AnswerWrite?
  }

  ghost predicate Writes(s: Sys, t: nat, obj: nat) {
    t in s.threads && Writing(s.threads[t]) && s.threads[t].dialog.obj == obj
  }

  /** A concluded dialog was claimed or withdrawn, and a claimed one has its final response or a
      goroutine writing it. */
  ghost predicate Resolved(s: Sys, obj: nat)
    requires obj in s.adapters
  {
    var a := s.adapters[obj];
    && (a.concluded ==> a.claim.Some? || a.withdrawn)
    && (a.claim.Some? && A.NoFinal(a.sent) ==> Writes(s, a.claim.value, obj))
  }

  ghost predicate ResponseInv(s: Sys) {
    && (forall obj <- s.adapters :: A.Valid(s.adapters[obj]) && Resolved(s, obj))
    && (forall t <- s.threads :: PcInv(s, t, s.threads[t]))
    && (forall d <- s.place | d.obj in s.adapters :: !A.NoFinal(s.adapters[d.obj].sent))
  }

  predicate Holding(pc: Pc) {
    pc.AnswerDone? || pc.SendBye?
  }

  ghost predicate Holds(s: Sys, t: nat, d: Dialog) {
    t in s.threads && s.threads[t].dialog == d && Holding(s.threads[t])
  }

  function ByesOf(place: map<Dialog, Place>, d: Dialog): nat {
    if d in place && place[d].Byed? then 1 else 0
  }

  /** An accepted dialog is in one place, which is where the manager and the goroutines have it. */
  ghost predicate PlaceInv(s: Sys) {
    && (s.m.active.Some? ==> s.m.active.value in s.place && s.place[s.m.active.value].Up?)
    && (forall d <- s.place | s.place[d].Up? :: s.m.active == Some(d))
    && (forall t <- s.threads | Holding(s.threads[t]) ::
          s.threads[t].dialog in s.place && s.place[s.threads[t].dialog] == With(t))
    && (forall d <- s.place | s.place[d].With? :: Holds(s, s.place[d].thread, d))
    && (forall d <- s.place | s.place[d].Dropped? :: s.place[d].named in s.peerEnded)
    && (forall d :: s.byes[d] == ByesOf(s.place, d))
  }

  ghost predicate Concludes(s: Sys, t: nat, d: Dialog) {
    t in s.threads && s.threads[t].dialog == d && (s.threads[t].FinalClaim? || s.threads[t].Reject?)
  }

  /** An inbound dialog is still pending, concluded, about to be concluded, or was cleared by the
      CANCEL of another dialog. */
  ghost predicate Accounted(s: Sys, d: Dialog) {
    || s.m.incoming == Some(d)
    || (d.obj in s.adapters && s.adapters[d.obj].concluded)
    || d in s.strayed
    || exists t :: Concludes(s, t, d)
  }

  ghost predicate RingInv(s: Sys) {
    forall obj <- s.adapters :: Accounted(s, Inbound(obj, s.adapters[obj].id))
  }

  ghost predicate Inv(s: Sys) {
    QueueInv(s) && AgreeInv(s) && IdentityInv(s) && ResponseInv(s) && PlaceInv(s) && RingInv(s)
  }

  // ----- Every step keeps them -----

  lemma DoKeepsQueue(s: Sys, op: Op)
    requires QueueInv(s) && AgreeInv(s) && Valid(s.m) && Callable(s.m, op)
    ensures QueueInv(Do(s, op)) && AgreeInv(Do(s, op)) && Valid(Do(s, op).m)
  {
    var n := Do(s, op);
    CommitKeepsValid(s.m, op);
    assert InFlight(n) == InFlight(s);
    assert n.delivered + InFlight(n) + n.m.pending == s.delivered + InFlight(s) + s.m.pending + Opt(EventOf(s.m, op));
    DoKeepsAgreement(s, op, InFlight(s) + s.m.pending, n);
  }

  lemma DoKeepsAgreement(s: Sys, op: Op, queue: seq<C.Event>, n: Sys)
    requires AgreeInv(s) && queue == InFlight(s) + s.m.pending && Valid(s.m) && Callable(s.m, op)
    requires n.m == Commit(s.m, op) && n.projector == s.projector && InFlight(n) == InFlight(s)
    ensures AgreeInv(n)
  {
    CommitKeepsValid(s.m, op);
    CommitAgrees(s.m, op, C.FoldCalls(C.CallsOf(s.projector), queue).value);
    assert InFlight(n) + n.m.pending == queue + Opt(EventOf(s.m, op));
    if EventOf(s.m, op).Some? {
      C.FoldCallsSnoc(C.CallsOf(s.projector), queue, EventOf(s.m, op).value);
    } else {
      assert queue + [] == queue;
    }
  }

  lemma EmptyQueueHandedBack(s: Sys)
    requires QueueInv(s) && |s.drainers| == 1 && s.drainers[0].Top? && s.m.pending == []
    ensures QueueInv(StepDrain(s, 0)) && InFlight(s) == InFlight(StepDrain(s, 0)) == []
    ensures StepDrain(s, 0).m.pending == []
  {
    assert StepDrain(s, 0).drainers == [];
  }

  lemma EventTaken(s: Sys)
    requires QueueInv(s) && |s.drainers| == 1 && s.drainers[0].Top? && s.m.pending != []
    ensures QueueInv(StepDrain(s, 0)) && InFlight(s) == []
    ensures InFlight(StepDrain(s, 0)) + StepDrain(s, 0).m.pending == s.m.pending
  {
    var n := StepDrain(s, 0);
    assert n.drainers == [Delivering(s.m.pending[0])];
    assert s.m.pending == [s.m.pending[0]] + s.m.pending[1..];
    assert n.delivered + InFlight(n) + n.m.pending == s.delivered + s.m.pending;
  }

  lemma TopMovesNothing(s: Sys)
    requires QueueInv(s) && Valid(s.m) && |s.drainers| == 1 && s.drainers[0].Top?
    ensures QueueInv(StepDrain(s, 0)) && Valid(StepDrain(s, 0).m)
    ensures InFlight(StepDrain(s, 0)) + StepDrain(s, 0).m.pending == InFlight(s) + s.m.pending
  {
    CommitKeepsValid(s.m, Decline);
    if s.m.pending == [] { EmptyQueueHandedBack(s); } else { EventTaken(s); }
  }

  lemma TopKeepsQueue(s: Sys)
    requires QueueInv(s) && AgreeInv(s) && Valid(s.m) && |s.drainers| == 1 && s.drainers[0].Top?
    ensures QueueInv(StepDrain(s, 0)) && AgreeInv(StepDrain(s, 0)) && Valid(StepDrain(s, 0).m)
  {
    TopMovesNothing(s);
  }

  lemma DeliveryKeepsQueue(s: Sys)
    requires QueueInv(s) && AgreeInv(s) && Valid(s.m) && |s.drainers| == 1 && s.drainers[0].Delivering?
    ensures QueueInv(StepDrain(s, 0)) && AgreeInv(StepDrain(s, 0)) && Valid(StepDrain(s, 0).m)
  {
    var n, e := StepDrain(s, 0), s.drainers[0].event;
    var queue := InFlight(s) + s.m.pending;
    assert queue[0] == e && queue[1..] == s.m.pending;
    C.CallFieldsAreIndependent(s.projector, e);
    assert InFlight(n) + n.m.pending == s.m.pending;
    assert n.delivered + InFlight(n) == s.delivered + InFlight(s);
  }

  ghost predicate DialogInv(s: Sys) {
    IdentityInv(s) && ResponseInv(s) && PlaceInv(s) && RingInv(s)
  }

  ghost predicate FrameInv(s: Sys) {
    IdentityInv(s) && ResponseInv(s)
  }

  /** How a step may change the adapter of one dialog: nothing is taken back, and no caller but `t`
      loses its claim. */
  ghost predicate Evolves(a: A.Dialog, b: A.Dialog, t: nat) {
    && A.Valid(b) && b.id == a.id
    && (a.concluded ==> b.concluded)
    && (!A.NoFinal(a.sent) ==> !A.NoFinal(b.sent))
    && forall c | c != t && A.MayWrite(a, c) :: A.MayWrite(b, c)
  }

  /** A step of goroutine `t` on dialog `d`: everything else stays, and what it takes from the
      manager or from its own program counter it accounts for. */
  ghost predicate LocalStep(s: Sys, n: Sys, t: nat, d: Dialog) {
    LocalFrame(s, n, t, d) && PlaceMoves(s, n, t, d) && LocalCare(s, n, t, d)
  }

  ghost predicate LocalFrame(s: Sys, n: Sys, t: nat, d: Dialog) {
    && s.nextObj <= n.nextObj && s.nextThread <= n.nextThread && Valid(n.m)
    && s.peerEnded <= n.peerEnded && s.strayed <= n.strayed
    && (forall i | i != t :: i in n.threads <==> i in s.threads)
    && (forall i <- s.threads | i != t :: n.threads[i] == s.threads[i])
    && (forall o | o != d.obj :: o in n.adapters <==> o in s.adapters)
    && (forall o <- s.adapters | o != d.obj :: n.adapters[o] == s.adapters[o])
    && (d.obj in n.adapters ==> A.Valid(n.adapters[d.obj]) && (d.obj in s.adapters || d.obj >= s.nextObj))
    && (d.obj in s.adapters ==> d.obj in n.adapters && Evolves(s.adapters[d.obj], n.adapters[d.obj], t))
    && Known(n, d)
    && (d.obj in n.adapters ==> Resolved(n, d.obj))
    && (t in s.threads && Writing(s.threads[t]) ==> s.threads[t].dialog.obj == d.obj)
    && (t in n.threads ==> t < n.nextThread && Known(n, n.threads[t].dialog) && PcInv(n, t, n.threads[t])
                           && n.threads[t].dialog == (if t in s.threads then s.threads[t].dialog else d))
    && ManagerMoves(s, n)
  }

  /** Only the dialog of the step changes places, never out of the hands of another goroutine. */
  ghost predicate PlaceMoves(s: Sys, n: Sys, t: nat, d: Dialog) {
    && (forall x | x != d :: x in n.place <==> x in s.place)
    && (forall x <- s.place | x != d :: n.place[x] == s.place[x])
    && (d in s.place ==> d in n.place && (s.place[d].With? && s.place[d].thread != t ==> n.place[d] == s.place[d]))
    && (d in n.place && d !in s.place ==> d.obj in n.adapters ==> !A.NoFinal(n.adapters[d.obj].sent))
    && (forall x | x != d :: n.byes[x] == s.byes[x]) && n.byes[d] == ByesOf(n.place, d)
    && HandsMove(s, n, t, d)
  }

  ghost predicate HandsMove(s: Sys, n: Sys, t: nat, d: Dialog) {
    && (s.m.active.Some? && s.m.active.value != d ==> n.m.active == s.m.active)
    && (n.m.active.Some? ==> n.m.active == s.m.active || n.m.active.value == d)
    && (n.m.active == Some(d) <==> d in n.place && n.place[d].Up?)
    && (n.m.active == Some(d) && s.m.active != Some(d) ==> d.Outbound? || Commits(s, t, d))
    && (t in s.threads && Holding(s.threads[t]) ==> s.threads[t].dialog == d)
    && (t in n.threads && Holding(n.threads[t]) ==>
          n.threads[t].dialog == d && d in n.place && n.place[d] == With(t))
    && (d in n.place && n.place[d].With? ==>
          if n.place[d].thread == t then Holds(n, t, d) else d in s.place && s.place[d] == n.place[d])
    && (d in n.place && n.place[d].Dropped? ==> n.place[d].named in n.peerEnded)
    && (d in n.place && n.place[d].Dropped? ==>
          (d in s.place && s.place[d] == n.place[d]) || (s.m.active == Some(d) && Notifies(s, t, n.place[d].named)))
  }

  /** Goroutine `t` is about to commit the answer of the pending dialog. */
  ghost predicate Commits(s: Sys, t: nat, d: Dialog) {
    t in s.threads && s.threads[t].AnswerDone? && s.threads[t].dialog == d && s.m.incoming == Some(d)
  }

  /** Goroutine `t` brings the manager the news of the BYE for `named`. */
  ghost predicate Notifies(s: Sys, t: nat, named: Dialog) {
    t in s.threads && (s.threads[t].PeerBye? || s.threads[t].Callback?) && s.threads[t].dialog == named
  }

  /** What the step takes away, it accounts for. */
  ghost predicate LocalCare(s: Sys, n: Sys, t: nat, d: Dialog) {
    && (s.m.incoming.Some? ==> Accounted(n, s.m.incoming.value))
    && (t in s.threads ==> (s.threads[t].FinalClaim? || s.threads[t].Reject?) ==>
          Accounted(n, s.threads[t].dialog))
    && (d.Inbound? && d.obj !in s.adapters ==> Accounted(n, d))
  }

  /** What the manager holds after a step: what it held, nothing, or the dialog of the step. */
  ghost predicate ManagerMoves(s: Sys, n: Sys) {
    && (n.m.active.Some? ==> Known(n, n.m.active.value) && n.m.active.value in n.place)
    && (n.m.incoming.Some? ==> Known(n, n.m.incoming.value))
    && (n.m.incoming.Some? ==>
          if n.m.incoming == s.m.incoming then n.m.incomingEntrypoint == s.m.incomingEntrypoint
          else n.m.incoming.value.obj >= s.nextObj)
  }

  lemma KnownStays(s: Sys, n: Sys, t: nat, d: Dialog, x: Dialog)
    requires LocalStep(s, n, t, d) && Known(s, x)
    ensures Known(n, x)
  {
  }

  lemma LocalStepKeepsIdentity(s: Sys, n: Sys, t: nat, d: Dialog)
    requires IdentityInv(s) && LocalStep(s, n, t, d)
    ensures IdentityInv(n)
  {
    forall x | Known(s, x)
      ensures Known(n, x)
    {
      KnownStays(s, n, t, d, x);
    }
  }

  lemma LocalStepKeepsResponses(s: Sys, n: Sys, t: nat, d: Dialog)
    requires IdentityInv(s) && ResponseInv(s) && LocalStep(s, n, t, d)
    ensures ResponseInv(n)
  {
    forall i <- n.threads
      ensures PcInv(n, i, n.threads[i])
    {
      if i != t {
        OtherPcStays(s, n, t, d, i);
      }
    }
    forall obj <- n.adapters
      ensures A.Valid(n.adapters[obj]) && Resolved(n, obj)
    {
      if obj != d.obj {
        assert Resolved(s, obj);
      }
    }
  }

  lemma OtherPcStays(s: Sys, n: Sys, t: nat, d: Dialog, i: nat)
    requires IdentityInv(s) && ResponseInv(s) && LocalStep(s, n, t, d) && i in s.threads && i != t
    ensures PcInv(n, i, s.threads[i])
  {
    assert PcInv(s, i, s.threads[i]) && Known(s, s.threads[i].dialog);
  }

  lemma LocalStepKeepsPlaces(s: Sys, n: Sys, t: nat, d: Dialog)
    requires PlaceInv(s) && LocalStep(s, n, t, d)
    ensures PlaceInv(n)
  {
    forall x <- n.place | n.place[x].With?
      ensures Holds(n, n.place[x].thread, x)
    {
      if x != d || n.place[x].thread != t {
        assert Holds(s, s.place[x].thread, x);
      }
    }
  }

  lemma LocalStepKeepsRings(s: Sys, n: Sys, t: nat, d: Dialog)
    requires IdentityInv(s) && RingInv(s) && LocalStep(s, n, t, d)
    ensures RingInv(n)
  {
    forall obj <- n.adapters
      ensures Accounted(n, Inbound(obj, n.adapters[obj].id))
    {
      if obj in s.adapters {
        StillAccounted(s, n, t, d, Inbound(obj, s.adapters[obj].id));
      }
    }
  }

  lemma StillAccounted(s: Sys, n: Sys, t: nat, d: Dialog, x: Dialog)
    requires LocalStep(s, n, t, d) && Accounted(s, x) && x.Inbound? && x.obj in s.adapters
    ensures Accounted(n, x)
  {
    if exists i :: Concludes(s, i, x) {
      var i :| Concludes(s, i, x);
      assert i != t ==> Concludes(n, i, x);
    }
  }

  /** The step of a goroutine, as far as responses, slots and goroutines go. */
  ghost predicate Frames(s: Sys, n: Sys, t: nat, d: Dialog) {
    LocalFrame(s, n, t, d) && LocalCare(s, n, t, d)
  }

  lemma LocalStepKeeps(s: Sys, n: Sys, t: nat, d: Dialog)
    requires DialogInv(s) && LocalStep(s, n, t, d)
    ensures DialogInv(n)
  {
    LocalStepKeepsIdentity(s, n, t, d);
    LocalStepKeepsResponses(s, n, t, d);
    LocalStepKeepsPlaces(s, n, t, d);
    LocalStepKeepsRings(s, n, t, d);
  }

  // Goroutines started

  lemma BusyFrames(s: Sys, callID: string, n: Sys, d: Dialog)
    requires FrameInv(s) && callID != "" && d == Inbound(s.nextObj, callID)
    requires n == Spawn(s.(nextObj := s.nextObj + 1, adapters := s.adapters[s.nextObj := A.Fresh(callID)]),
                        FinalClaim(d, 486))
    ensures Frames(s, n, s.nextThread, d)
  {
    assert Concludes(n, s.nextThread, d);
  }

  lemma ReserveFrames(s: Sys, callID: string, ep: string, dev: string, n: Sys, d: Dialog)
    requires FrameInv(s) && callID != "" && d == Inbound(s.nextObj, callID)
    requires s.m.incoming.None? && s.m.active.None? && ep != "" && n == StepInvite(s, callID, ep, dev)
    ensures Frames(s, n, s.nextThread, d)
  {
    CommitKeepsValid(s.m, Invite(d, ep, dev));
    assert n.m.incoming == Some(d);
  }

  lemma AnswerStartFrames(s: Sys, d: Dialog)
    requires FrameInv(s) && s.m.incoming == Some(d)
    ensures Frames(s, Spawn(s, AnswerClaim(d, s.m.incomingEntrypoint)), s.nextThread, d)
  {
  }

  /** A goroutine that takes the pending dialog concludes it. */
  lemma RejectFrames(s: Sys, op: Op, n: Sys, pc: Pc, d: Dialog)
    requires FrameInv(s) && (op == Hangup || op == Decline) && s.m.incoming == Some(d)
    requires pc == Reject(d) || pc == FinalClaim(d, 603)
    requires n == Spawn(Do(s, op), pc)
    ensures Frames(s, n, s.nextThread, d)
  {
    CommitKeepsValid(s.m, op);
    assert Concludes(n, s.nextThread, d);
  }

  lemma HangupFrames(s: Sys, op: Op, n: Sys, d: Dialog)
    requires FrameInv(s) && (op == Hangup || op == HangupCall) && s.m.active == Some(d) && n == TakeActive(s, op)
    ensures Frames(s, n, s.nextThread, d)
  {
    CommitKeepsValid(s.m, op);
  }

  lemma PeerByeFrames(s: Sys, d: Dialog, n: Sys)
    requires FrameInv(s) && d in s.place && d !in s.peerEnded && n == Step(s, OnPeerBye(d))
    ensures Frames(s, n, s.nextThread, d)
  {
  }

  lemma DialFrames(s: Sys, n: Sys)
    requires FrameInv(s) && s.m.incoming.None? && s.m.active.None? && n == Step(s, OnDial)
    ensures Frames(s, n, s.nextThread, Outbound(s.nextObj))
  {
    CommitKeepsValid(s.m, Dial(Outbound(s.nextObj)));
  }

  lemma TimerFrames(s: Sys, n: Sys, d: Dialog)
    requires FrameInv(s) && s.m.incomingExpiry == Some(Timer(d, false)) && n == Spawn(Do(s, TimerFires), Expire(d))
    ensures Frames(s, n, s.nextThread, d)
  {
    CommitKeepsValid(s.m, TimerFires);
  }

  lemma WithdrawFrames(s: Sys, obj: nat, reason: C.CallEndReason, n: Sys, d: Dialog)
    requires FrameInv(s) && obj in s.adapters && A.CanEndPending(s.adapters[obj]) && d == Inbound(obj, s.adapters[obj].id)
    requires n == Spawn(SetAdapter(s, d, A.EndPending(s.adapters[obj])), Ended(d, reason))
    ensures Frames(s, n, s.nextThread, d)
  {
  }

  // Goroutines that go on

  ghost predicate Standing(s: Sys, t: nat, pc: Pc) {
    FrameInv(s) && t in s.threads && s.threads[t] == pc
  }

  lemma FinishFrames(s: Sys, t: nat, pc: Pc)
    requires Standing(s, t, pc) && pc.dialog.obj in s.adapters
    requires !Writing(pc) && (pc.Reject? || pc.FinalClaim? ==> s.adapters[pc.dialog.obj].concluded)
    ensures Frames(s, Finish(s, t), t, pc.dialog)
  {
    assert PcInv(s, t, pc) && Known(s, pc.dialog);
  }

  lemma ClaimFrames(s: Sys, t: nat, pc: Pc, d: Dialog, status: nat, body: string, next: Pc, n: Sys)
    requires Standing(s, t, pc) && pc.dialog == d && d.Inbound? && d.obj in s.adapters && !s.adapters[d.obj].concluded
    requires status >= 200
    requires n == Goto(SetAdapter(s, d, A.Claim(s.adapters[d.obj], t, status, body)), t, next)
    requires next == FinalWrite(d, status) || (pc.AnswerClaim? && next == AnswerWrite(d, pc.entrypoint))
    ensures Frames(s, n, t, d)
  {
    A.ClaimIsExclusive(s.adapters[d.obj], t, status, body, t);
    assert PcInv(s, t, pc) && Known(s, d);
  }

  lemma WriteFrames(s: Sys, t: nat, pc: Pc, d: Dialog, status: nat, n: Sys)
    requires Standing(s, t, pc) && pc.dialog == d && Writing(pc) && status >= 200
    requires d.obj in s.adapters && A.MayWrite(s.adapters[d.obj], t)
    requires n == Finish(SetAdapter(s, d, A.Write(s.adapters[d.obj], status)), t)
    ensures Frames(s, n, t, d)
  {
    A.WriteKeepsValid(s.adapters[d.obj], t, status);
    assert PcInv(s, t, pc) && Known(s, d);
  }

  lemma AcceptFrames(s: Sys, t: nat, pc: Pc, d: Dialog, ep: string, n: Sys)
    requires Standing(s, t, pc) && pc == AnswerWrite(d, ep)
    requires d.obj in s.adapters && A.MayWrite(s.adapters[d.obj], t)
    requires n == Goto(SetAdapter(s, d, A.Write(s.adapters[d.obj], 200)).(place := s.place[d := With(t)]), t, AnswerDone(d, ep))
    ensures Frames(s, n, t, d)
  {
    A.WriteKeepsValid(s.adapters[d.obj], t, 200);
    assert PcInv(s, t, pc) && Known(s, d);
  }

  lemma RingFrames(s: Sys, t: nat, pc: Pc, ok: bool, n: Sys)
    requires Standing(s, t, pc) && pc.Ring? && pc.dialog.obj in s.adapters
    requires n == StepResponse(s, t, s.adapters[pc.dialog.obj], ok)
    ensures Frames(s, n, t, pc.dialog)
  {
    A.ProvisionalKeepsValid(s.adapters[pc.dialog.obj], 180, ok);
    assert PcInv(s, t, pc) && Known(s, pc.dialog);
  }

  lemma CommitOutcome(m: State, d: Dialog, ep: string)
    requires Valid(m) && Callable(m, AnswerCommit(d, ep))
    ensures
      var n := Commit(m, AnswerCommit(d, ep));
      && Valid(n)
      && (if m.incoming == Some(d) then n.incoming.None? && n.active == Some(d) else n == m)
  {
    CommitKeepsValid(m, AnswerCommit(d, ep));
  }

  lemma CommitFrames(s: Sys, t: nat, pc: Pc, d: Dialog, ep: string, n: Sys)
    requires Standing(s, t, pc) && pc == AnswerDone(d, ep) && d.obj in s.adapters
    requires n == StepAnswer(s, t, d, ep, s.adapters[d.obj], true)
    ensures Frames(s, n, t, d)
  {
    assert PcInv(s, t, pc) && Known(s, d);
    CommitOutcome(s.m, d, ep);
  }

  lemma ByeFrames(s: Sys, t: nat, pc: Pc, d: Dialog, n: Sys)
    requires Standing(s, t, pc) && pc == SendBye(d) && n == StepBye(s, t, d)
    ensures Frames(s, n, t, d)
  {
    assert PcInv(s, t, pc) && Known(s, d);
  }

  lemma RejectingFrames(s: Sys, t: nat, pc: Pc, n: Sys)
    requires Standing(s, t, pc) && pc.Reject? && n == Goto(s, t, FinalClaim(pc.dialog, 603))
    ensures Frames(s, n, t, pc.dialog)
  {
    assert PcInv(s, t, pc) && Known(s, pc.dialog);
    assert Concludes(n, t, pc.dialog);
  }

  /** The expiry and the rollback conclude the pending dialog they clear. */
  lemma ClearFrames(s: Sys, t: nat, pc: Pc, d: Dialog, reason: C.CallEndReason, status: nat, n: Sys)
    requires Standing(s, t, pc) && pc.dialog == d && s.m.incoming == Some(d) && (pc.Rollback? || pc.Expire?)
    requires status >= 200
    requires n == Goto(Do(s, ClearIncoming(Some(d), reason)), t, FinalClaim(d, status))
    ensures Frames(s, n, t, d)
  {
    assert PcInv(s, t, pc) && Known(s, d);
    CommitKeepsValid(s.m, ClearIncoming(Some(d), reason));
    ClearEmpties(s.m, Some(d), reason);
    assert Concludes(n, t, d);
  }

  lemma ClearEmpties(m: State, expected: Option<Dialog>, reason: C.CallEndReason)
    requires Takes(m, expected)
    ensures
      var n := Commit(m, ClearIncoming(expected, reason));
      n.incoming.None? && n.active == m.active
  {
  }

  /** A withdrawn call is concluded; any other pending call it clears goes astray. */
  lemma EndedFrames(s: Sys, t: nat, pc: Pc, d: Dialog, reason: C.CallEndReason, n: Sys)
    requires Standing(s, t, pc) && pc == Ended(d, reason) && n == StepEnded(s, t, d, reason)
    ensures Frames(s, n, t, d)
  {
    CommitKeepsValid(s.m, ClearIncoming(None, reason));
    WithdrawalEmpties(s.m, reason);
    var stray := if s.m.incoming.Some? && s.m.incoming.value != d then {s.m.incoming.value} else {};
    var cleared := Do(s, ClearIncoming(None, reason)).(strayed := s.strayed + stray);
    ClearedFrames(s, t, pc, d, stray, cleared, n);
  }

  lemma WithdrawalEmpties(m: State, reason: C.CallEndReason)
    ensures
      var n := Commit(m, ClearIncoming(None, reason));
      n.incoming.None? && n.active == m.active && (m.incoming.None? ==> n == m)
  {
  }

  lemma ClearedFrames(s: Sys, t: nat, pc: Pc, d: Dialog, stray: set<Dialog>, cleared: Sys, n: Sys)
    requires Standing(s, t, pc) && pc.Ended? && pc.dialog == d && n == Finish(cleared, t)
    requires stray == if s.m.incoming.Some? && s.m.incoming.value != d then {s.m.incoming.value} else {}
    requires Valid(cleared.m) && cleared.m.incoming.None? && cleared.m.active == s.m.active
    requires cleared == s.(m := cleared.m, committed := cleared.committed, drainers := cleared.drainers,
                           strayed := s.strayed + stray)
    ensures Frames(s, n, t, d)
  {
    assert PcInv(s, t, pc) && Known(s, d);
  }

  /** The manager drops the active dialog, whichever BYE the goroutine brings. */
  lemma DropEmpties(m: State)
    requires Valid(m) && m.active.Some?
    ensures
      var n := Commit(m, RemoteDialogEnded);
      n.active.None? && n.incoming == m.incoming && n.incomingEntrypoint == m.incomingEntrypoint && Valid(n)
  {
    CommitKeepsValid(m, RemoteDialogEnded);
  }

  lemma DropFrames(s: Sys, t: nat, pc: Pc, named: Dialog, d: Dialog, dropped: Sys, n: Sys)
    requires Standing(s, t, pc) && (pc == PeerBye(named) || pc == Callback(named)) && s.m.active == Some(d)
    requires Valid(dropped.m) && dropped.m.active.None? && dropped.m.incoming == s.m.incoming
    requires dropped.m.incomingEntrypoint == s.m.incomingEntrypoint
    requires dropped == s.(m := dropped.m, committed := dropped.committed, drainers := dropped.drainers,
                           place := dropped.place)
    requires n == if pc.PeerBye? then Goto(dropped, t, Callback(named)) else Finish(dropped, t)
    ensures Frames(s, n, t, d)
  {
    assert PcInv(s, t, pc) && Known(s, named);
  }

  lemma NothingDroppedFrames(s: Sys, t: nat, pc: Pc, d: Dialog, n: Sys)
    requires Standing(s, t, pc) && (pc == PeerBye(d) || pc == Callback(d))
    requires n == if pc.PeerBye? then Goto(s, t, Callback(d)) else Finish(s, t)
    ensures Frames(s, n, t, d)
  {
    assert PcInv(s, t, pc) && Known(s, d);
  }

  // Places

  lemma NobodyMoves(s: Sys, n: Sys, t: nat, d: Dialog)
    requires PlaceInv(s) && n.place == s.place && n.byes == s.byes && n.m.active == s.m.active
    requires t in s.threads ==> !Holding(s.threads[t])
    requires t in n.threads ==> !Holding(n.threads[t])
    requires s.peerEnded <= n.peerEnded
    ensures PlaceMoves(s, n, t, d)
  {
    if d in s.place && s.place[d].With? {
      assert Holds(s, s.place[d].thread, d);
    }
  }

  lemma TakenMoves(s: Sys, op: Op, n: Sys, d: Dialog)
    requires PlaceInv(s) && Valid(s.m) && (op == Hangup || op == HangupCall) && s.m.active == Some(d)
    requires n == TakeActive(s, op) && s.nextThread !in s.threads
    ensures PlaceMoves(s, n, s.nextThread, d)
  {
    assert Holds(n, s.nextThread, d);
  }

  lemma DialMoves(s: Sys, n: Sys, d: Dialog)
    requires PlaceInv(s) && Valid(s.m) && s.m.incoming.None? && s.m.active.None? && n == Step(s, OnDial)
    requires d == Outbound(s.nextObj) && d !in s.place && s.nextThread !in s.threads && s.nextObj !in s.adapters
    ensures PlaceMoves(s, n, s.nextThread, d)
  {
  }

  lemma AcceptMoves(s: Sys, t: nat, d: Dialog, ep: string, a: A.Dialog, n: Sys)
    requires PlaceInv(s) && t in s.threads && s.threads[t] == AnswerWrite(d, ep) && d !in s.place && !A.NoFinal(a.sent)
    requires n == Goto(SetAdapter(s, d, a).(place := s.place[d := With(t)]), t, AnswerDone(d, ep))
    ensures PlaceMoves(s, n, t, d)
  {
    assert Holds(n, t, d);
  }

  lemma CommitMoves(s: Sys, t: nat, d: Dialog, ep: string, a: A.Dialog, n: Sys)
    requires PlaceInv(s) && Valid(s.m) && t in s.threads && s.threads[t] == AnswerDone(d, ep)
    requires n == StepAnswer(s, t, d, ep, a, true)
    ensures PlaceMoves(s, n, t, d)
  {
    assert Holds(s, t, d);
    assert n.m.active == Some(d) || Holds(n, t, d);
  }

  lemma ByeMoves(s: Sys, t: nat, d: Dialog, n: Sys)
    requires PlaceInv(s) && t in s.threads && s.threads[t] == SendBye(d)
    requires n.place == s.place[d := Byed] && n.byes == s.byes + multiset{d} && n.m == s.m
    requires n.threads == s.threads - {t} && n.peerEnded == s.peerEnded
    ensures PlaceMoves(s, n, t, d)
  {
  }

  lemma DropMoves(s: Sys, t: nat, named: Dialog, d: Dialog, dropped: Sys, n: Sys)
    requires PlaceInv(s) && Notifies(s, t, named) && s.m.active == Some(d) && named in s.peerEnded
    requires dropped.m.active.None? && dropped.place == s.place[d := Dropped(named)] && dropped.byes == s.byes
    requires dropped.threads == s.threads && dropped.peerEnded == s.peerEnded
    requires n == Goto(dropped, t, Callback(named)) || n == Finish(dropped, t)
    ensures PlaceMoves(s, n, t, d)
  {
  }

  predicate Drops(pc: Pc, ok: bool) {
    pc.PeerBye? || (pc.Callback? && ok)
  }

  /** The dialog a section acts on: its goroutine's, except that a drop takes whatever is active. */
  function ThreadSubject(s: Sys, t: nat, ok: bool): Dialog
    requires t in s.threads
  {
    if Drops(s.threads[t], ok) && s.m.active.Some? then s.m.active.value else s.threads[t].dialog
  }

  /** The dialog an action acts on; None when it reaches no dialog or is not enabled. */
  function Subject(s: Sys, action: Action): Option<Dialog> {
    match action
    case OnInvite(callID, _, _) => if callID == "" then None else Some(Inbound(s.nextObj, callID))
    case OnAnswer => s.m.incoming
    case OnDecline => s.m.incoming
    case OnHangup => if s.m.active.Some? then s.m.active else s.m.incoming
    case OnHangupCall => s.m.active
    case OnPeerBye(d) => if d in s.place && d !in s.peerEnded then Some(d) else None
    case OnDial => if s.m.incoming.Some? || s.m.active.Some? then None else Some(Outbound(s.nextObj))
    case OnTimer =>
      if s.m.incomingExpiry.None? || s.m.incomingExpiry.value.fired then None
      else Some(s.m.incomingExpiry.value.dialog)
    case OnWithdraw(obj, _) =>
      if obj !in s.adapters || !A.CanEndPending(s.adapters[obj]) then None
      else Some(Inbound(obj, s.adapters[obj].id))
    case Run(t, ok) => if t in s.threads then Some(ThreadSubject(s, t, ok)) else None
    case Drain(_) => None
    case OtherEvent(_) => None
  }

  function Actor(s: Sys, action: Action): nat {
    if action.Run? then action.thread else s.nextThread
  }

  lemma ResponseFrames(s: Sys, t: nat, pc: Pc, ok: bool, n: Sys)
    requires Standing(s, t, pc) && !IsAnswer(pc) && !pc.SendBye? && !pc.PeerBye? && !pc.Callback?
    requires n == StepThread(s, t, ok)
    ensures Frames(s, n, t, pc.dialog)
  {
    assert PcInv(s, t, pc);
    var d, a := pc.dialog, s.adapters[pc.dialog.obj];
    match pc
    case Ring(_) => RingFrames(s, t, pc, ok, n);
    case FinalClaim(_, status) =>
      if a.concluded { FinishFrames(s, t, pc); } else { ClaimFrames(s, t, pc, d, status, "", FinalWrite(d, status), n); }
    case FinalWrite(_, status) => WriteFrames(s, t, pc, d, status, n);
    case Reject(_) => if ok && a.withdrawn { FinishFrames(s, t, pc); } else { RejectingFrames(s, t, pc, n); }
    case Ended(_, reason) => EndedFrames(s, t, pc, d, reason, n);
    case Rollback(_) =>
      if Takes(s.m, Some(d)) { ClearFrames(s, t, pc, d, C.Cancelled, 500, n); } else { FinishFrames(s, t, pc); }
    case Expire(_) =>
      if Takes(s.m, Some(d)) { ClearFrames(s, t, pc, d, C.Timeout, 480, n); } else { FinishFrames(s, t, pc); }
  }

  lemma AnswerFrames(s: Sys, t: nat, pc: Pc, ok: bool, n: Sys)
    requires Standing(s, t, pc) && IsAnswer(pc) && n == StepThread(s, t, ok)
    ensures Frames(s, n, t, pc.dialog)
  {
    assert PcInv(s, t, pc);
    var d, ep, a := pc.dialog, pc.entrypoint, s.adapters[pc.dialog.obj];
    if pc.AnswerDone? { CommitFrames(s, t, pc, d, ep, n); }
    else if pc.AnswerClaim? {
      if a.concluded { FinishFrames(s, t, pc); } else { ClaimFrames(s, t, pc, d, 200, "sdp", AnswerWrite(d, ep), n); }
    } else if ok { AcceptFrames(s, t, pc, d, ep, n); }
    else { WriteFrames(s, t, pc, d, 200, n); }
  }

  lemma NoticeFrames(s: Sys, t: nat, pc: Pc, ok: bool, n: Sys)
    requires Standing(s, t, pc) && (pc.PeerBye? || pc.Callback?) && n == StepNotice(s, t, ok)
    ensures Frames(s, n, t, ThreadSubject(s, t, ok))
  {
    if Drops(pc, ok) && s.m.active.Some? {
      DropEmpties(s.m);
      DropFrames(s, t, pc, pc.dialog, s.m.active.value, DropActive(s, pc.dialog), n);
    } else {
      NothingDroppedFrames(s, t, pc, pc.dialog, n);
    }
  }

  lemma ThreadFrames(s: Sys, t: nat, pc: Pc, ok: bool, n: Sys)
    requires Standing(s, t, pc) && n == StepThread(s, t, ok)
    ensures Frames(s, n, t, ThreadSubject(s, t, ok))
  {
    if pc.PeerBye? || pc.Callback? { NoticeFrames(s, t, pc, ok, n); }
    else if pc.SendBye? { ByeFrames(s, t, pc, pc.dialog, n); }
    else if IsAnswer(pc) { AnswerFrames(s, t, pc, ok, n); }
    else { ResponseFrames(s, t, pc, ok, n); }
  }

  lemma ClearLeavesActive(m: State, expected: Option<Dialog>, reason: C.CallEndReason)
    ensures Commit(m, ClearIncoming(expected, reason)).active == m.active
  {
  }

  lemma ClearingMovesNobody(s: Sys, t: nat, a: A.Dialog, ok: bool, n: Sys)
    requires t in s.threads && Clears(s.threads[t]) && n == StepResponse(s, t, a, ok)
    ensures n.place == s.place && n.byes == s.byes && n.m.active == s.m.active && n.peerEnded == s.peerEnded
    ensures t in n.threads ==> !Holding(n.threads[t])
  {
    match s.threads[t]
    case Rollback(d) => ClearLeavesActive(s.m, Some(d), C.Cancelled);
    case Expire(d) => ClearLeavesActive(s.m, Some(d), C.Timeout);
    case Ended(_, reason) => ClearLeavesActive(s.m, None, reason);
  }

  lemma ResponseMovesNobody(s: Sys, t: nat, a: A.Dialog, ok: bool, n: Sys)
    requires t in s.threads && !Holding(s.threads[t]) && n == StepResponse(s, t, a, ok)
    ensures n.place == s.place && n.byes == s.byes && n.m.active == s.m.active && n.peerEnded == s.peerEnded
    ensures t in n.threads ==> !Holding(n.threads[t])
  {
    if Clears(s.threads[t]) { ClearingMovesNobody(s, t, a, ok, n); } else { RespondingMovesNobody(s, t, a, ok, n); }
  }

  lemma RespondingMovesNobody(s: Sys, t: nat, a: A.Dialog, ok: bool, n: Sys)
    requires t in s.threads && !Holding(s.threads[t]) && !Clears(s.threads[t]) && n == StepResponse(s, t, a, ok)
    ensures n.place == s.place && n.byes == s.byes && n.m == s.m && n.peerEnded == s.peerEnded
    ensures t in n.threads ==> !Holding(n.threads[t])
  {
    match s.threads[t]
    case Ring(d) => assert n.threads == s.threads - {t} || n.threads == s.threads[t := Rollback(d)];
    case FinalClaim(d, status) => assert n.threads == s.threads - {t} || n.threads == s.threads[t := FinalWrite(d, status)];
    case FinalWrite(_, _) =>
    case _ =>
  }

  lemma AnswerMoves(s: Sys, t: nat, pc: Pc, ok: bool, n: Sys)
    requires Standing(s, t, pc) && PlaceInv(s) && IsAnswer(pc) && n == StepThread(s, t, ok)
    ensures PlaceMoves(s, n, t, pc.dialog)
  {
    assert PcInv(s, t, pc);
    var d, ep, a := pc.dialog, pc.entrypoint, s.adapters[pc.dialog.obj];
    if pc.AnswerDone? { CommitMoves(s, t, d, ep, a, n); }
    else if pc.AnswerWrite? && ok {
      A.WriteKeepsValid(a, t, 200);
      AcceptMoves(s, t, d, ep, A.Write(a, 200), n);
    } else { NobodyMoves(s, n, t, d); }
  }

  lemma NoticeMoves(s: Sys, t: nat, pc: Pc, ok: bool, n: Sys)
    requires Standing(s, t, pc) && PlaceInv(s) && (pc.PeerBye? || pc.Callback?) && n == StepNotice(s, t, ok)
    ensures PlaceMoves(s, n, t, ThreadSubject(s, t, ok))
  {
    assert PcInv(s, t, pc);
    if Drops(pc, ok) && s.m.active.Some? {
      DropEmpties(s.m);
      DropMoves(s, t, pc.dialog, s.m.active.value, DropActive(s, pc.dialog), n);
    } else {
      NobodyMoves(s, n, t, pc.dialog);
    }
  }

  lemma ThreadMoves(s: Sys, t: nat, pc: Pc, ok: bool, n: Sys)
    requires Standing(s, t, pc) && PlaceInv(s) && n == StepThread(s, t, ok)
    ensures PlaceMoves(s, n, t, ThreadSubject(s, t, ok))
  {
    assert PcInv(s, t, pc) && Known(s, pc.dialog);
    if pc.PeerBye? || pc.Callback? { NoticeMoves(s, t, pc, ok, n); }
    else if pc.SendBye? { ByeMoves(s, t, pc.dialog, n); }
    else if IsAnswer(pc) { AnswerMoves(s, t, pc, ok, n); }
    else {
      ResponseMovesNobody(s, t, s.adapters[pc.dialog.obj], ok, n);
      NobodyMoves(s, n, t, pc.dialog);
    }
  }

  lemma InviteFrames(s: Sys, callID: string, ep: string, dev: string, n: Sys, d: Dialog)
    requires FrameInv(s) && callID != "" && d == Inbound(s.nextObj, callID) && n == StepInvite(s, callID, ep, dev)
    ensures Frames(s, n, s.nextThread, d)
  {
    if s.m.incoming.None? && s.m.active.None? && ep != "" {
      ReserveFrames(s, callID, ep, dev, n, d);
    } else {
      BusyFrames(s, callID, n, d);
    }
  }

  lemma CallerFrames(s: Sys, action: Action, n: Sys, d: Dialog)
    requires FrameInv(s) && Subject(s, action) == Some(d) && n == Step(s, action)
    requires action.OnAnswer? || action.OnDecline? || action.OnHangup? || action.OnHangupCall?
    ensures Frames(s, n, s.nextThread, d)
  {
    if action.OnAnswer? { AnswerStartFrames(s, d); }
    else if action.OnDecline? { RejectFrames(s, Decline, n, FinalClaim(d, 603), d); }
    else if action.OnHangupCall? { HangupFrames(s, HangupCall, n, d); }
    else if s.m.active.Some? { HangupFrames(s, Hangup, n, d); }
    else { RejectFrames(s, Hangup, n, Reject(d), d); }
  }

  lemma EnvironmentFrames(s: Sys, action: Action, n: Sys, d: Dialog)
    requires FrameInv(s) && Subject(s, action) == Some(d) && n == Step(s, action) && !action.Run?
    ensures Frames(s, n, s.nextThread, d)
  {
    match action
    case OnInvite(callID, ep, dev) => InviteFrames(s, callID, ep, dev, n, d);
    case OnPeerBye(_) => PeerByeFrames(s, d, n);
    case OnDial => DialFrames(s, n);
    case OnTimer => TimerFrames(s, n, d);
    case OnWithdraw(obj, reason) => WithdrawFrames(s, obj, Normalized(reason), n, d);
    case _ => CallerFrames(s, action, n, d);
  }

  predicate TakesActive(s: Sys, action: Action) {
    s.m.active.Some? && (action.OnHangup? || action.OnHangupCall?)
  }

  ghost predicate SamePlaces(s: Sys, n: Sys) {
    && n.place == s.place && n.byes == s.byes && n.m.active == s.m.active && s.peerEnded <= n.peerEnded
    && (s.nextThread in n.threads ==> !Holding(n.threads[s.nextThread]))
  }

  lemma OthersMoveNobody(s: Sys, action: Action, n: Sys)
    requires n == Step(s, action) && !action.Run? && !action.OnDial? && !TakesActive(s, action)
    requires s.nextThread !in s.threads
    ensures SamePlaces(s, n)
  {
    if action.OnInvite? { InviteMovesNobody(s, action.callID, action.entrypoint, action.devAddr); }
    else if action.OnDecline? || action.OnHangup? { RejectMovesNobody(s, action, n); }
  }

  lemma RejectMovesNobody(s: Sys, action: Action, n: Sys)
    requires n == Step(s, action) && (action.OnDecline? || action.OnHangup?) && !TakesActive(s, action)
    requires s.nextThread !in s.threads
    ensures SamePlaces(s, n)
  {
    assert Commit(s.m, Decline).active == s.m.active;
    assert s.m.active.None? ==> Commit(s.m, Hangup).active == s.m.active;
  }

  lemma InviteMovesNobody(s: Sys, callID: string, ep: string, dev: string)
    requires s.nextThread !in s.threads
    ensures SamePlaces(s, StepInvite(s, callID, ep, dev))
  {
  }

  lemma EnvironmentMoves(s: Sys, action: Action, n: Sys, d: Dialog)
    requires FrameInv(s) && PlaceInv(s) && Subject(s, action) == Some(d) && n == Step(s, action) && !action.Run?
    ensures PlaceMoves(s, n, s.nextThread, d)
  {
    assert s.nextThread !in s.threads;
    if action.OnDial? {
      DialMoves(s, n, d);
    } else if TakesActive(s, action) {
      TakenMoves(s, if action.OnHangup? then Hangup else HangupCall, n, d);
    } else {
      OthersMoveNobody(s, action, n);
      NobodyMoves(s, n, s.nextThread, d);
    }
  }

  lemma StepIsLocal(s: Sys, action: Action)
    requires DialogInv(s) && Subject(s, action).Some?
    ensures LocalStep(s, Step(s, action), Actor(s, action), Subject(s, action).value)
  {
    var n := Step(s, action);
    if action.Run? {
      ThreadFrames(s, action.thread, s.threads[action.thread], action.ok, n);
      ThreadMoves(s, action.thread, s.threads[action.thread], action.ok, n);
    } else {
      EnvironmentFrames(s, action, n, Subject(s, action).value);
      EnvironmentMoves(s, action, n, Subject(s, action).value);
    }
  }

  lemma NoSubjectNoChange(s: Sys, action: Action)
    requires Subject(s, action).None? && !action.Drain? && !action.OtherEvent?
    ensures Step(s, action) == s
  {
  }

  lemma StepKeepsDialogs(s: Sys, action: Action)
    requires DialogInv(s) && !action.Drain? && !action.OtherEvent?
    ensures DialogInv(Step(s, action))
  {
    if Subject(s, action).Some? {
      StepIsLocal(s, action);
      LocalStepKeeps(s, Step(s, action), Actor(s, action), Subject(s, action).value);
    } else {
      NoSubjectNoChange(s, action);
    }
  }

  lemma DeliveryKeepsFrame(s: Sys, n: Sys)
    requires FrameInv(s) && OnlyQueueMoves(s, n)
    ensures FrameInv(n)
  {
    forall t <- n.threads
      ensures PcInv(n, t, n.threads[t])
    {
      assert PcInv(s, t, s.threads[t]);
    }
    forall obj <- n.adapters
      ensures Resolved(n, obj)
    {
      assert Resolved(s, obj);
    }
  }

  lemma DeliveryKeepsPlaces(s: Sys, n: Sys)
    requires PlaceInv(s) && OnlyQueueMoves(s, n)
    ensures PlaceInv(n)
  {
    forall d <- n.place | n.place[d].With?
      ensures Holds(n, n.place[d].thread, d)
    {
      assert Holds(s, s.place[d].thread, d);
    }
  }

  lemma DeliveryKeepsRings(s: Sys, n: Sys)
    requires RingInv(s) && OnlyQueueMoves(s, n)
    ensures RingInv(n)
  {
    forall obj <- n.adapters
      ensures Accounted(n, Inbound(obj, n.adapters[obj].id))
    {
      var d := Inbound(obj, n.adapters[obj].id);
      assert Accounted(s, d);
      if t :| Concludes(s, t, d) { assert Concludes(n, t, d); }
    }
  }

  /** Draining and projecting reach no dialog. */
  lemma DeliveryKeepsDialogs(s: Sys, n: Sys)
    requires DialogInv(s) && OnlyQueueMoves(s, n)
    ensures DialogInv(n)
  {
    DeliveryKeepsFrame(s, n);
    DeliveryKeepsPlaces(s, n);
    DeliveryKeepsRings(s, n);
  }

  /** Committing an operation and then touching no event keeps the queue invariants. */
  lemma QueueFrame(s: Sys, n: Sys)
    requires QueueInv(s) && AgreeInv(s)
    requires n.m == s.m && n.drainers == s.drainers && n.projector == s.projector
    requires n.committed == s.committed && n.delivered == s.delivered
    ensures QueueInv(n) && AgreeInv(n)
  {
  }

  lemma CommitKeepsQueue(s: Sys, op: Op, n: Sys)
    requires QueueInv(s) && AgreeInv(s) && Valid(s.m) && Callable(s.m, op)
    requires n.m == Do(s, op).m && n.drainers == Do(s, op).drainers && n.projector == s.projector
    requires n.committed == Do(s, op).committed && n.delivered == s.delivered
    ensures QueueInv(n) && AgreeInv(n)
  {
    DoKeepsQueue(s, op);
    QueueFrame(Do(s, op), n);
  }

  ghost predicate Queues(s: Sys) {
    QueueInv(s) && AgreeInv(s)
  }

  predicate Clears(pc: Pc) {
    pc.Rollback? || pc.Expire? || pc.Ended?
  }

  lemma ClearKeepsQueue(s: Sys, t: nat, pc: Pc, d: Dialog, reason: C.CallEndReason, status: nat, n: Sys)
    requires Queues(s) && Valid(s.m) && Takes(s.m, Some(d))
    requires n == Goto(Do(s, ClearIncoming(Some(d), reason)), t, FinalClaim(d, status))
    ensures Queues(n)
  {
    CommitKeepsQueue(s, ClearIncoming(Some(d), reason), n);
  }

  lemma EndedKeepsQueue(s: Sys, t: nat, d: Dialog, reason: C.CallEndReason, n: Sys)
    requires Queues(s) && Valid(s.m) && n == StepEnded(s, t, d, reason)
    ensures Queues(n)
  {
    CommitKeepsQueue(s, ClearIncoming(None, reason), n);
  }

  lemma ClearingKeepsQueue(s: Sys, t: nat, pc: Pc, a: A.Dialog, ok: bool, n: Sys)
    requires Queues(s) && Valid(s.m) && t in s.threads && s.threads[t] == pc && n == StepResponse(s, t, a, ok)
    requires Clears(pc)
    ensures Queues(n)
  {
    if pc.Ended? { EndedKeepsQueue(s, t, pc.dialog, pc.reason, n); }
    else if !Takes(s.m, Some(pc.dialog)) { QueueFrame(s, n); }
    else if pc.Expire? { ClearKeepsQueue(s, t, pc, pc.dialog, C.Timeout, 480, n); }
    else { ClearKeepsQueue(s, t, pc, pc.dialog, C.Cancelled, 500, n); }
  }

  lemma ResponseKeepsQueue(s: Sys, t: nat, pc: Pc, a: A.Dialog, ok: bool, n: Sys)
    requires Queues(s) && Valid(s.m) && t in s.threads && s.threads[t] == pc && n == StepResponse(s, t, a, ok)
    ensures Queues(n)
  {
    if Clears(pc) { ClearingKeepsQueue(s, t, pc, a, ok, n); } else { QueueFrame(s, n); }
  }

  lemma AnswerCommitKeepsQueue(s: Sys, t: nat, d: Dialog, ep: string, n: Sys)
    requires Queues(s) && Valid(s.m) && Callable(s.m, AnswerCommit(d, ep))
    requires n == Do(s, AnswerCommit(d, ep)).(threads := n.threads, place := n.place)
    ensures Queues(n)
  {
    DoKeepsQueue(s, AnswerCommit(d, ep));
    QueueFrame(Do(s, AnswerCommit(d, ep)), n);
  }

  lemma AnswerLeavesQueue(s: Sys, t: nat, d: Dialog, ep: string, a: A.Dialog, ok: bool, n: Sys)
    requires t in s.threads && (s.threads[t].AnswerClaim? || s.threads[t].AnswerWrite?)
    requires n == StepAnswer(s, t, d, ep, a, ok)
    ensures n == s.(adapters := n.adapters, threads := n.threads, place := n.place)
  {
  }

  lemma AnswerKeepsQueue(s: Sys, t: nat, d: Dialog, ep: string, a: A.Dialog, ok: bool, n: Sys)
    requires Queues(s) && Valid(s.m) && t in s.threads && n == StepAnswer(s, t, d, ep, a, ok)
    requires IsAnswer(s.threads[t]) && Callable(s.m, AnswerCommit(d, ep))
    ensures Queues(n)
  {
    if s.threads[t].AnswerDone? {
      AnswerCommitKeepsQueue(s, t, d, ep, n);
    } else {
      AnswerLeavesQueue(s, t, d, ep, a, ok, n);
      QueueFrame(s, n);
    }
  }

  lemma NoticeKeepsQueue(s: Sys, t: nat, ok: bool, n: Sys)
    requires Queues(s) && Valid(s.m) && t in s.threads && (s.threads[t].PeerBye? || s.threads[t].Callback?)
    requires n == StepNotice(s, t, ok)
    ensures Queues(n)
  {
    if Drops(s.threads[t], ok) && s.m.active.Some? { CommitKeepsQueue(s, RemoteDialogEnded, n); } else { QueueFrame(s, n); }
  }

  lemma ThreadKeepsQueue(s: Sys, t: nat, pc: Pc, ok: bool, n: Sys)
    requires Queues(s) && Valid(s.m) && t in s.threads && s.threads[t] == pc && PcInv(s, t, pc)
    requires n == StepThread(s, t, ok)
    ensures Queues(n)
  {
    if pc.PeerBye? || pc.Callback? { NoticeKeepsQueue(s, t, ok, n); }
    else if pc.SendBye? { QueueFrame(s, n); }
    else if IsAnswer(pc) {
      AnswerKeepsQueue(s, t, pc.dialog, pc.entrypoint, s.adapters[pc.dialog.obj], ok, n);
    }
    else { ResponseKeepsQueue(s, t, pc, s.adapters[pc.dialog.obj], ok, n); }
  }

  lemma InviteKeepsQueue(s: Sys, callID: string, ep: string, dev: string, n: Sys)
    requires Queues(s) && Valid(s.m) && n == StepInvite(s, callID, ep, dev)
    ensures Queues(n)
  {
    if callID != "" && s.m.incoming.None? && s.m.active.None? && ep != "" {
      CommitKeepsQueue(s, Invite(Inbound(s.nextObj, callID), ep, dev), n);
    } else {
      QueueFrame(s, n);
    }
  }

  lemma EndingKeepsQueue(s: Sys, action: Action, n: Sys)
    requires Queues(s) && Valid(s.m) && n == Step(s, action)
    requires action.OnDecline? || action.OnHangup? || action.OnHangupCall?
    ensures Queues(n)
  {
    if n == s { return; }
    if action.OnDecline? { CommitKeepsQueue(s, Decline, n); }
    else if action.OnHangup? { CommitKeepsQueue(s, Hangup, n); }
    else { CommitKeepsQueue(s, HangupCall, n); }
  }

  lemma CallerKeepsQueue(s: Sys, action: Action, n: Sys)
    requires Queues(s) && Valid(s.m) && n == Step(s, action)
    requires !action.Run? && !action.Drain? && !action.OtherEvent?
    ensures Queues(n)
  {
    if action.OnInvite? { InviteKeepsQueue(s, action.callID, action.entrypoint, action.devAddr, n); }
    else if action.OnDecline? || action.OnHangup? || action.OnHangupCall? { EndingKeepsQueue(s, action, n); }
    else if n == s { }
    else if action.OnDial? { CommitKeepsQueue(s, Dial(Outbound(s.nextObj)), n); }
    else if action.OnTimer? { CommitKeepsQueue(s, TimerFires, n); }
    else { QueueFrame(s, n); }
  }

  lemma DrainKeepsDialogs(s: Sys, action: Action, n: Sys)
    requires QueueInv(s) && DialogInv(s) && (action.Drain? || action.OtherEvent?) && n == Step(s, action)
    ensures DialogInv(n)
  {
    DrainReachesNoDialog(s, action, n);
    DeliveryKeepsDialogs(s, n);
  }

  ghost predicate OnlyQueueMoves(s: Sys, n: Sys) {
    && Valid(n.m) && n.m == s.m.(pending := n.m.pending, draining := n.m.draining)
    && n == s.(m := n.m, drainers := n.drainers, projector := n.projector, delivered := n.delivered)
  }

  lemma PopReachesNoDialog(s: Sys, n: Sys)
    requires Valid(s.m) && |s.drainers| > 0 && s.drainers[0].Top? && n == StepDrain(s, 0)
    ensures OnlyQueueMoves(s, n)
  {
    CommitKeepsValid(s.m, Decline);
  }

  lemma DrainReachesNoDialog(s: Sys, action: Action, n: Sys)
    requires Valid(s.m) && QueueInv(s) && (action.Drain? || action.OtherEvent?) && n == Step(s, action)
    ensures OnlyQueueMoves(s, n)
  {
    if action.Drain? && action.drainer < |s.drainers| && s.drainers[0].Top? {
      PopReachesNoDialog(s, n);
    }
  }

  lemma DrainKeepsQueue(s: Sys, action: Action)
    requires QueueInv(s) && AgreeInv(s) && Valid(s.m) && (action.Drain? || action.OtherEvent?)
    ensures QueueInv(Step(s, action)) && AgreeInv(Step(s, action))
  {
    match action
    case Drain(i) =>
      if i < |s.drainers| {
        if s.drainers[0].Top? { TopKeepsQueue(s); } else { DeliveryKeepsQueue(s); }
      }
    case OtherEvent(e) => C.CallFieldsAreIndependent(s.projector, e);
  }

  lemma StepKeepsInv(s: Sys, action: Action)
    requires Inv(s)
    ensures Inv(Step(s, action))
  {
    if action.Drain? || action.OtherEvent? {
      DrainKeepsQueue(s, action);
      DrainKeepsDialogs(s, action, Step(s, action));
    } else {
      StepKeepsDialogs(s, action);
      if action.Run? {
        if action.thread in s.threads {
          ThreadKeepsQueue(s, action.thread, s.threads[action.thread], action.ok, Step(s, action));
        }
      } else {
        CallerKeepsQueue(s, action, Step(s, action));
      }
    }
  }

  lemma {:induction false} ReachInv(actions: seq<Action>)
    ensures Inv(Reach(actions))
  {
    if actions != [] {
      ReachInv(actions[..|actions| - 1]);
      StepKeepsInv(Reach(actions[..|actions| - 1]), actions[|actions| - 1]);
    }
  }

  // ----- What holds in every reachable state -----

  /** Folding the undelivered events over the projector yields exactly the manager's calls, none of
      those events is ever rejected, and the projector never shows two calls or a stale end. */
  lemma {:induction false} ProjectorAgrees(actions: seq<Action>)
    ensures
      var s := Reach(actions);
      var folded := C.FoldCalls(C.CallsOf(s.projector), InFlight(s) + s.m.pending);
      && folded.Some? && Agrees(folded.value, s.m)
      && (InFlight(s) + s.m.pending == [] ==> Agrees(C.CallsOf(s.projector), s.m))
      && (InFlight(s) != [] && C.IsCallEvent(InFlight(s)[0]) ==> C.After(s.projector, InFlight(s)[0]).Ok?)
      && C.Coherent(s.projector)
  {
    ReachInv(actions);
    ReachCoherent(actions);
    var s := Reach(actions);
    if InFlight(s) != [] {
      C.CallFieldsAreIndependent(s.projector, InFlight(s)[0]);
      assert (InFlight(s) + s.m.pending)[0] == InFlight(s)[0];
    }
  }

  lemma {:induction false} ReachCoherent(actions: seq<Action>)
    ensures C.Coherent(Reach(actions).projector)
  {
    if actions != [] {
      ReachCoherent(actions[..|actions| - 1]);
      StepCoherent(Reach(actions[..|actions| - 1]), actions[|actions| - 1]);
    }
  }

  lemma StepCoherent(s: Sys, action: Action)
    requires C.Coherent(s.projector)
    ensures C.Coherent(Step(s, action).projector)
  {
    if action.Run? && action.thread in s.threads {
      ThreadLeavesProjector(s, action.thread, action.ok);
    }
  }

  lemma ThreadLeavesProjector(s: Sys, t: nat, ok: bool)
    requires t in s.threads
    ensures StepThread(s, t, ok).projector == s.projector
  {
  }

  /** Events are delivered once each, in commit order, by one drainer at most, and a queued event
      always has a drainer. */
  lemma {:induction false} DeliveredExactlyOnce(actions: seq<Action>)
    ensures
      var s := Reach(actions);
      && s.delivered + InFlight(s) + s.m.pending == s.committed
      && |s.drainers| == (if s.m.draining then 1 else 0)
      && (s.m.pending != [] ==> |s.drainers| == 1)
  {
    ReachInv(actions);
  }

  /** An accepted dialog that nobody will end: the manager does not know it, no goroutine has it, it
      got no BYE and its peer sent none. */
  ghost predicate Orphaned(s: Sys, d: Dialog) {
    d in s.place && s.m.active != Some(d) && s.byes[d] == 0 && d !in s.peerEnded && !exists t :: Holds(s, t, d)
  }

  /** Dropped from the manager for the BYE of another dialog. */
  predicate Misdropped(s: Sys, d: Dialog) {
    d in s.place && s.place[d].Dropped? && s.place[d].named != d
  }

  lemma OrphansAreMisdropped(s: Sys, d: Dialog)
    requires PlaceInv(s) && d in s.place
    ensures Orphaned(s, d) <==> Misdropped(s, d) && d !in s.peerEnded
    ensures s.place[d].Dropped? && !Misdropped(s, d) ==> d in s.peerEnded
  {
    if s.place[d].With? {
      assert Holds(s, s.place[d].thread, d);
    }
  }

  /** No dialog is concluded or sent a BYE twice, and one the far end accepted is orphaned exactly if
      it was dropped for the BYE of another dialog and its own peer sent none: one call at most holds
      the manager, responses are provisionals and then at most one final, and a withdrawn call never
      had a final response, let alone an answer. */
  lemma {:induction false} NoOrphanedDialog(actions: seq<Action>)
    ensures
      var s := Reach(actions);
      && !(s.m.incoming.Some? && s.m.active.Some?)
      && (forall d <- s.place :: Orphaned(s, d) <==> Misdropped(s, d) && d !in s.peerEnded)
      && (forall d :: s.byes[d] <= 1)
      && (forall obj <- s.adapters :: A.Disciplined(s.adapters[obj].sent))
      && (forall obj <- s.adapters | s.adapters[obj].withdrawn ::
            A.NoFinal(s.adapters[obj].sent) && Inbound(obj, s.adapters[obj].id) !in s.place)
  {
    ReachInv(actions);
    var s := Reach(actions);
    forall d <- s.place
      ensures Orphaned(s, d) <==> Misdropped(s, d) && d !in s.peerEnded
    {
      OrphansAreMisdropped(s, d);
    }
    forall obj <- s.adapters | s.adapters[obj].withdrawn
      ensures A.NoFinal(s.adapters[obj].sent) && Inbound(obj, s.adapters[obj].id) !in s.place
    {
      assert A.Valid(s.adapters[obj]);
    }
  }

  /** A notification of the peer's BYE orphans the dialog it drops exactly if that is not the dialog
      the BYE was for, and its own peer has not ended it either. */
  lemma {:induction false} DropOrphansAnother(actions: seq<Action>, t: nat, ok: bool)
    requires t in Reach(actions).threads && Drops(Reach(actions).threads[t], ok) && Reach(actions).m.active.Some?
    ensures
      var s := Reach(actions);
      var d := s.m.active.value;
      Orphaned(Step(s, Run(t, ok)), d) <==> d != s.threads[t].dialog && d !in s.peerEnded
  {
    ReachInv(actions);
    DropOrphans(Reach(actions), t, ok, Step(Reach(actions), Run(t, ok)));
  }

  lemma DropOrphans(s: Sys, t: nat, ok: bool, n: Sys)
    requires Inv(s) && t in s.threads && Drops(s.threads[t], ok) && s.m.active.Some? && n == Step(s, Run(t, ok))
    ensures
      var d := s.m.active.value;
      Orphaned(n, d) <==> d != s.threads[t].dialog && d !in s.peerEnded
  {
    StepKeepsInv(s, Run(t, ok));
    assert PcInv(s, t, s.threads[t]);
    assert n.place[s.m.active.value] == Dropped(s.threads[t].dialog) && n.peerEnded == s.peerEnded;
    OrphansAreMisdropped(n, s.m.active.value);
  }

  /** And nothing else orphans a dialog. */
  lemma {:induction false} OnlyDropsOrphan(actions: seq<Action>, action: Action, d: Dialog)
    requires d in Reach(actions).place && !Orphaned(Reach(actions), d) && Orphaned(Step(Reach(actions), action), d)
    ensures
      var s := Reach(actions);
      && action.Run? && action.thread in s.threads && s.m.active == Some(d)
      && (s.threads[action.thread].PeerBye? || s.threads[action.thread].Callback?)
      && s.threads[action.thread].dialog != d
  {
    ReachInv(actions);
    NewOrphanWasDropped(Reach(actions), action, d, Step(Reach(actions), action));
  }

  lemma NewOrphanWasDropped(s: Sys, action: Action, d: Dialog, n: Sys)
    requires Inv(s) && n == Step(s, action) && d in s.place && !Orphaned(s, d) && Orphaned(n, d)
    ensures action.Run? && s.m.active == Some(d)
    ensures exists named :: Notifies(s, action.thread, named) && named != d
  {
    StepKeepsInv(s, action);
    OrphansAreMisdropped(s, d);
    OrphansAreMisdropped(n, d);
    PlaceOnlyChangesLocally(s, action, d, n);
    assert Notifies(s, Actor(s, action), n.place[d].named) && s.nextThread !in s.threads;
  }

  lemma PlaceOnlyChangesLocally(s: Sys, action: Action, d: Dialog, n: Sys)
    requires DialogInv(s) && QueueInv(s) && n == Step(s, action) && d in s.place
    ensures d in n.place && s.peerEnded <= n.peerEnded
    ensures n.place[d].Dropped? && n.place[d] != s.place[d] ==>
              s.m.active == Some(d) && Notifies(s, Actor(s, action), n.place[d].named)
  {
    if action.Drain? || action.OtherEvent? {
      DrainReachesNoDialog(s, action, n);
    } else if Subject(s, action).Some? {
      StepIsLocal(s, action);
      PlaceChanges(s, n, Actor(s, action), Subject(s, action).value, d);
    } else {
      NoSubjectNoChange(s, action);
    }
  }

  lemma PlaceChanges(s: Sys, n: Sys, t: nat, x: Dialog, d: Dialog)
    requires LocalStep(s, n, t, x) && d in s.place
    ensures d in n.place && s.peerEnded <= n.peerEnded
    ensures n.place[d].Dropped? && n.place[d] != s.place[d] ==> s.m.active == Some(d) && Notifies(s, t, n.place[d].named)
  {
  }

  ghost predicate Announces(s: Sys, t: nat, d: Dialog) {
    t in s.threads && s.threads[t] == PeerBye(d)
  }

  /** The manager has been told of the BYE for `d`. */
  ghost predicate Told(s: Sys, d: Dialog) {
    d in s.peerEnded && !exists t :: Announces(s, t, d)
  }

  /** An answered call that is up although its peer ended it and the manager has been told. */
  ghost predicate DeadUp(s: Sys, d: Dialog) {
    d.Inbound? && s.m.active == Some(d) && Told(s, d)
  }

  /** A step leaves a dead call up exactly if it commits the answer of a call whose peer's BYE the
      manager has already been told of. */
  lemma {:induction false} CommitRaisesTheDead(actions: seq<Action>, action: Action, d: Dialog)
    requires !DeadUp(Reach(actions), d)
    ensures
      var s := Reach(actions);
      DeadUp(Step(s, action), d) <==>
        d.Inbound? && action.Run? && Commits(s, action.thread, d) && Told(s, d)
  {
    ReachInv(actions);
    StepRaisesTheDead(Reach(actions), action, d, Step(Reach(actions), action));
  }

  lemma StepRaisesTheDead(s: Sys, action: Action, d: Dialog, n: Sys)
    requires FrameInv(s) && PlaceInv(s) && RingInv(s) && QueueInv(s) && n == Step(s, action) && !DeadUp(s, d)
    ensures DeadUp(n, d) <==> d.Inbound? && action.Run? && Commits(s, action.thread, d) && Told(s, d)
  {
    if DeadUp(n, d) {
      RaisedByCommit(s, action, d, n);
    } else if d.Inbound? && action.Run? && Commits(s, action.thread, d) && Told(s, d) {
      CommitRaises(s, action.thread, s.threads[action.thread], action.ok, d, n);
    }
  }

  lemma CommitRaises(s: Sys, t: nat, pc: Pc, ok: bool, d: Dialog, n: Sys)
    requires FrameInv(s) && Commits(s, t, d) && s.threads[t] == pc && n == StepThread(s, t, ok) && d.Inbound?
    requires Told(s, d)
    ensures DeadUp(n, d)
  {
    assert PcInv(s, t, pc);
    CommitOutcome(s.m, d, pc.entrypoint);
    assert n == StepAnswer(s, t, d, pc.entrypoint, s.adapters[d.obj], ok);
    assert forall u :: Announces(n, u, d) ==> Announces(s, u, d);
  }

  lemma RaisedByCommit(s: Sys, action: Action, d: Dialog, n: Sys)
    requires DialogInv(s) && QueueInv(s) && n == Step(s, action) && !DeadUp(s, d) && DeadUp(n, d)
    ensures action.Run? && Commits(s, action.thread, d) && Told(s, d)
  {
    if action.Drain? || action.OtherEvent? {
      DrainReachesNoDialog(s, action, n);
      DrainRaisesNobody(s, n, d);
    } else if Subject(s, action).None? {
      NoSubjectNoChange(s, action);
    } else {
      StepIsLocal(s, action);
      assert s.nextThread !in s.threads;
      StepMovesNotices(s, action, d, n);
      RaisedLocally(s, n, action, Subject(s, action).value, d);
    }
  }

  /** What a step leaves of the peers' BYEs and of the goroutines that announce them, as long as `d` is
      up afterwards. */
  ghost predicate NoticesMove(s: Sys, n: Sys, action: Action, d: Dialog) {
    && (action.Run? ==> n.peerEnded == s.peerEnded)
    && (!action.Run? ==> d in n.peerEnded && d !in s.peerEnded ==> Announces(n, s.nextThread, d))
    && (forall t :: Announces(s, t, d) ==> Announces(n, t, d))
  }

  lemma StepMovesNotices(s: Sys, action: Action, d: Dialog, n: Sys)
    requires FrameInv(s) && n == Step(s, action) && Subject(s, action).Some? && n.m.active == Some(d) && d.Inbound?
    requires forall u <- s.threads | u != Actor(s, action) :: u in n.threads && n.threads[u] == s.threads[u]
    ensures NoticesMove(s, n, action, d)
  {
    assert s.nextThread !in s.threads;
    if action.Run? {
      NoticesLast(s, action.thread, action.ok, d, n);
    } else {
      ByesAreAnnounced(s, action, d, n);
    }
  }

  lemma RaisedLocally(s: Sys, n: Sys, action: Action, x: Dialog, d: Dialog)
    requires PlaceMoves(s, n, Actor(s, action), x) && s.nextThread !in s.threads && NoticesMove(s, n, action, d)
    requires !DeadUp(s, d) && DeadUp(n, d)
    ensures action.Run? && Commits(s, action.thread, d) && Told(s, d)
  {
  }

  lemma DrainRaisesNobody(s: Sys, n: Sys, d: Dialog)
    requires OnlyQueueMoves(s, n)
    ensures DeadUp(n, d) <==> DeadUp(s, d)
  {
    assert forall t :: Announces(n, t, d) <==> Announces(s, t, d);
  }

  /** Until it has told the manager, the goroutine of a BYE announces it. */
  lemma NoticesLast(s: Sys, t: nat, ok: bool, d: Dialog, n: Sys)
    requires FrameInv(s) && t in s.threads && n == StepThread(s, t, ok) && n.m.active == Some(d)
    ensures n.peerEnded == s.peerEnded
    ensures forall u :: Announces(s, u, d) ==> Announces(n, u, d)
  {
    assert PcInv(s, t, s.threads[t]);
    ThreadFrames(s, t, s.threads[t], ok, n);
    ThreadEndsNobody(s, t, ok, n);
    if s.threads[t].PeerBye? && s.m.active.Some? {
      DropEmpties(s.m);
    }
  }

  lemma ThreadEndsNobody(s: Sys, t: nat, ok: bool, n: Sys)
    requires t in s.threads && n == StepThread(s, t, ok)
    ensures n.peerEnded == s.peerEnded
  {
  }

  lemma ByesAreAnnounced(s: Sys, action: Action, d: Dialog, n: Sys)
    requires !action.Run? && !action.Drain? && !action.OtherEvent? && n == Step(s, action) && d.Inbound?
    requires s.nextThread !in s.threads && forall u <- s.threads :: u in n.threads && n.threads[u] == s.threads[u]
    ensures d in n.peerEnded && d !in s.peerEnded ==> Announces(n, s.nextThread, d)
    ensures forall t :: Announces(s, t, d) ==> Announces(n, t, d)
  {
    if !action.OnPeerBye? {
      NobodyElseEnds(s, action, n);
    }
  }

  lemma NobodyElseEnds(s: Sys, action: Action, n: Sys)
    requires !action.Run? && !action.OnPeerBye? && n == Step(s, action)
    ensures n.peerEnded == s.peerEnded
  {
  }

  /** Once every goroutine has finished, each accepted dialog is up, was sent its one BYE, was ended by
      its own peer or was dropped for another dialog's BYE, and each call that ever came in is pending,
      has its final response, was withdrawn or went astray. */
  lemma {:induction false} QuiescentDialogs(actions: seq<Action>)
    requires Reach(actions).threads == map[]
    ensures
      var s := Reach(actions);
      && (forall d <- s.place ::
            (s.m.active == Some(d) || s.byes[d] == 1 || d in s.peerEnded) <==> !(Misdropped(s, d) && d !in s.peerEnded))
      && (forall obj <- s.adapters ::
            var d := Inbound(obj, s.adapters[obj].id);
            s.m.incoming == Some(d) || !A.NoFinal(s.adapters[obj].sent) || s.adapters[obj].withdrawn || d in s.strayed)
  {
    ReachInv(actions);
    var s := Reach(actions);
    forall d <- s.place
      ensures (s.m.active == Some(d) || s.byes[d] == 1 || d in s.peerEnded)
         <==> !(Misdropped(s, d) && d !in s.peerEnded)
    {
      OrphansAreMisdropped(s, d);
    }
    assert forall obj <- s.adapters :: Accounted(s, Inbound(obj, s.adapters[obj].id)) && Resolved(s, obj);
  }

  /** A call the far end still offers that nobody here will conclude: it is out of the manager, open,
      and no goroutine of any kind is on it. */
  ghost predicate Lost(s: Sys, d: Dialog) {
    && d.Inbound? && d.obj in s.adapters && s.adapters[d.obj].id == d.id && !s.adapters[d.obj].concluded
    && s.m.incoming != Some(d)
    && NobodyOn(s, d)
  }

  ghost predicate NobodyOn(s: Sys, d: Dialog) {
    forall t <- s.threads :: s.threads[t].dialog != d
  }

  /** The slot is empty now, and the call that was in it is lost exactly if it was open and deserted. */
  ghost predicate LosesOpenCall(s: Sys, n: Sys) {
    && n.m.incoming.None?
    && (s.m.incoming.Some? ==>
          var d := s.m.incoming.value;
          && d.obj in s.adapters
          && (Lost(n, d) <==> !s.adapters[d.obj].concluded && NobodyOn(s, d)))
  }

  /** EndIncoming matches no dialog.  The pending call it clears is lost exactly if that call is still
      open and no goroutine, an answer in flight say, is on it. */
  lemma {:induction false} CancelLosesCall(actions: seq<Action>, t: nat)
    requires t in Reach(actions).threads && Reach(actions).threads[t].Ended?
    ensures LosesOpenCall(Reach(actions), Step(Reach(actions), Run(t, true)))
  {
    ReachInv(actions);
    EndedRuns(Reach(actions), t, Reach(actions).threads[t]);
  }

  lemma EndedRuns(s: Sys, t: nat, pc: Pc)
    requires FrameInv(s) && t in s.threads && s.threads[t] == pc && pc.Ended?
    ensures LosesOpenCall(s, Step(s, Run(t, true)))
  {
    assert PcInv(s, t, pc) && Known(s, pc.dialog);
    assert StepThread(s, t, true) == StepEnded(s, t, pc.dialog, pc.reason);
    EndedLoses(s, t, pc.dialog, pc.reason, Step(s, Run(t, true)));
  }

  lemma EndedLoses(s: Sys, t: nat, withdrawn: Dialog, reason: C.CallEndReason, n: Sys)
    requires Valid(s.m) && t in s.threads && s.threads[t] == Ended(withdrawn, reason) && n == StepEnded(s, t, withdrawn, reason)
    requires withdrawn.obj in s.adapters && s.adapters[withdrawn.obj].concluded
    requires s.m.incoming.Some? ==> Known(s, s.m.incoming.value)
    ensures LosesOpenCall(s, n)
  {
    if s.m.incoming.Some? {
      ClearEmpties(s.m, None, reason);
      var d := s.m.incoming.value;
      assert n.threads == s.threads - {t} && n.adapters == s.adapters;
      if NobodyOn(n, d) && !s.adapters[d.obj].concluded {
        forall u <- s.threads
          ensures s.threads[u].dialog != d
        {
          assert u != t ==> u in n.threads;
        }
      }
    }
  }

  lemma LostStays(s: Sys, n: Sys, t: nat, x: Dialog, d: Dialog)
    requires DialogInv(s) && LocalStep(s, n, t, x) && Lost(s, d) && x != d && Known(s, d)
    ensures Lost(n, d)
  {
  }

  /** From there on, whatever happens here, only the far end's own CANCEL or BYE ever concludes it. */
  lemma {:induction false} LostForGood(actions: seq<Action>, more: seq<Action>, d: Dialog)
    requires Lost(Reach(actions), d)
    requires forall i | 0 <= i < |more| :: more[i].OnWithdraw? ==> more[i].obj != d.obj
    ensures Lost(Reach(actions + more), d)
    decreases |more|
  {
    if more == [] {
      assert actions + more == actions;
    } else {
      var before, last := more[..|more| - 1], more[|more| - 1];
      LostForGood(actions, before, d);
      assert actions + more == actions + before + [last];
      LostNext(actions + before, last, d);
    }
  }

  lemma LostNext(actions: seq<Action>, action: Action, d: Dialog)
    requires Lost(Reach(actions), d) && (action.OnWithdraw? ==> action.obj != d.obj)
    ensures Lost(Reach(actions + [action]), d)
  {
    ReachInv(actions);
    var _, s := Extend(actions, action);
    LostStep(Reach(actions), action, d);
  }

  lemma LostStep(s: Sys, action: Action, d: Dialog)
    requires Inv(s) && Lost(s, d) && (action.OnWithdraw? ==> action.obj != d.obj)
    ensures Lost(Step(s, action), d)
  {
    if action.Drain? || action.OtherEvent? {
      DeliveryKeepsLost(s, action, d);
    } else if Subject(s, action).None? {
      NoSubjectNoChange(s, action);
    } else {
      LostIsNoSubject(s, action, d);
      StepIsLocal(s, action);
      LostStays(s, Step(s, action), Actor(s, action), Subject(s, action).value, d);
    }
  }

  lemma DeliveryKeepsLost(s: Sys, action: Action, d: Dialog)
    requires Lost(s, d) && (action.Drain? || action.OtherEvent?)
    ensures Lost(Step(s, action), d)
  {
  }

  /** No action but its own withdrawal acts on a lost call. */
  lemma LostIsNoSubject(s: Sys, action: Action, d: Dialog)
    requires DialogInv(s) && Lost(s, d) && (action.OnWithdraw? ==> action.obj != d.obj)
    ensures Known(s, d) && Subject(s, action) != Some(d)
  {
    assert A.Valid(s.adapters[d.obj]);
    assert d !in s.place;
  }

  lemma Extend(actions: seq<Action>, action: Action) returns (longer: seq<Action>, s: Sys)
    ensures longer == actions + [action] && s == Reach(longer) == Step(Reach(actions), action)
  {
    longer := actions + [action];
    assert longer[..|actions|] == actions;
    s := Reach(longer);
  }

  lemma FirstCallRings() returns (a: seq<Action>)
    ensures
      var s := Reach(a);
      && s.threads == map[] && s.nextThread == 1 && s.nextObj == 1 && s.m.active.None?
      && s.m.incoming == Some(Inbound(0, "first")) && s.m.incomingEntrypoint == "door" && Valid(s.m)
      && 0 in s.adapters && s.adapters[0] == A.Provisional(A.Fresh("first"), 180, true)
      && s.strayed == {} && s.place == map[] && s.peerEnded == {} && s.byes == multiset{}
  {
    var s;
    a, s := Extend([], OnInvite("first", "door", "20"));
    assert s.threads == map[0 := Ring(Inbound(0, "first"))];
    a, s := Extend(a, Run(0, true));
    assert s.threads == map[];
  }

  lemma FirstCallWithdrawn() returns (a: seq<Action>)
    ensures
      var s := Reach(a);
      && s.threads == map[1 := Ended(Inbound(0, "first"), C.Cancelled)]
      && s.nextThread == 2 && s.nextObj == 1 && 0 in s.adapters && s.adapters[0].concluded && s.adapters[0].id == "first"
      && s.m.incoming == Some(Inbound(0, "first")) && s.m.active.None? && s.strayed == {}
  {
    var s;
    a := FirstCallRings();
    a, s := Extend(a, OnWithdraw(0, C.Cancelled));
    assert s.threads == map[1 := Ended(Inbound(0, "first"), C.Cancelled)];
  }

  lemma DeclineClears(m: State)
    ensures Commit(m, Decline).incoming.None? && Commit(m, Decline).active == m.active
  {
  }

  /** A first call is withdrawn; before the manager hears of it, the user declines that call. */
  lemma WithdrawnThenDeclined() returns (a: seq<Action>)
    ensures
      var s := Reach(a);
      && s.threads == map[1 := Ended(Inbound(0, "first"), C.Cancelled), 2 := FinalClaim(Inbound(0, "first"), 603)]
      && s.nextThread == 3 && s.nextObj == 1 && 0 in s.adapters && s.adapters[0].concluded
      && s.m.incoming.None? && s.m.active.None? && s.strayed == {}
  {
    var s;
    a := FirstCallWithdrawn();
    DeclineClears(Reach(a).m);
    a, s := Extend(a, OnDecline);
    assert s.threads == map[1 := Ended(Inbound(0, "first"), C.Cancelled), 2 := FinalClaim(Inbound(0, "first"), 603)];
  }

  lemma SecondCallReserved() returns (a: seq<Action>)
    ensures
      var s := Reach(a);
      && s.threads == map[1 := Ended(Inbound(0, "first"), C.Cancelled), 3 := Ring(Inbound(1, "second"))]
      && 0 in s.adapters && s.adapters[0].concluded && 1 in s.adapters && s.adapters[1] == A.Fresh("second")
      && s.m.incoming == Some(Inbound(1, "second")) && s.m.active.None? && s.strayed == {}
  {
    var s;
    a := WithdrawnThenDeclined();
    a, s := Extend(a, Run(2, true));
    assert s.threads == map[1 := Ended(Inbound(0, "first"), C.Cancelled)];
    a, s := Extend(a, OnInvite("second", "door", "20"));
  }

  lemma SecondCallRings() returns (a: seq<Action>)
    ensures
      var s := Reach(a);
      && s.threads == map[1 := Ended(Inbound(0, "first"), C.Cancelled)]
      && 0 in s.adapters && s.adapters[0].concluded
      && 1 in s.adapters && s.adapters[1].ringing && !s.adapters[1].concluded && s.adapters[1].id == "second"
      && s.m.incoming == Some(Inbound(1, "second")) && s.m.active.None? && s.strayed == {}
  {
    var s;
    a := SecondCallReserved();
    a, s := Extend(a, Run(3, true));
    assert s.threads == map[1 := Ended(Inbound(0, "first"), C.Cancelled)];
  }

  /** It does happen: the CANCEL of a declined call clears the next one, which then rings on with
      nobody left to conclude it. */
  lemma StrayCancel() returns (a: seq<Action>)
    ensures
      var s := Reach(a);
      && s.threads == map[] && s.m.incoming.None? && s.m.active.None?
      && s.strayed == {Inbound(1, "second")}
      && 1 in s.adapters && s.adapters[1].ringing && Lost(s, Inbound(1, "second"))
  {
    var s;
    a := SecondCallRings();
    a, s := Extend(a, Run(1, true));
    assert s.threads == map[];
  }

  // ----- The media callback of an ended call comes late -----

  const FIRST := Inbound(0, "first")

  lemma FirstCallAccepted() returns (a: seq<Action>)
    ensures
      var s := Reach(a);
      && s.threads == map[1 := AnswerDone(FIRST, "door")] && s.nextThread == 2 && s.nextObj == 1 && 0 in s.adapters
      && s.m.active.None? && s.m.incoming == Some(FIRST) && s.m.incomingEntrypoint == "door"
      && s.place == map[FIRST := With(1)] && s.peerEnded == {} && s.byes == multiset{}
  {
    var s;
    a := FirstCallRings();
    a, s := Extend(a, OnAnswer);
    assert s.threads == map[1 := AnswerClaim(FIRST, "door")];
    a, s := Extend(a, Run(1, true));
    assert s.threads == map[1 := AnswerWrite(FIRST, "door")];
    a, s := Extend(a, Run(1, true));
  }

  /** The call is up, and its peer hangs up. */
  lemma FirstCallEnded() returns (a: seq<Action>)
    ensures
      var s := Reach(a);
      && s.threads == map[2 := PeerBye(FIRST)] && s.nextThread == 3 && s.nextObj == 1
      && s.m.active == Some(FIRST) && s.m.incoming.None? && s.m.activeIncoming
      && s.place == map[FIRST := Up] && s.peerEnded == {FIRST} && s.byes == multiset{}
  {
    var s;
    a := FirstCallAccepted();
    a, s := Extend(a, Run(1, true));
    assert s.threads == map[] && s.place == map[FIRST := Up];
    a, s := Extend(a, OnPeerBye(FIRST));
  }

  lemma ManagerTold() returns (a: seq<Action>)
    ensures
      var s := Reach(a);
      && s.threads == map[2 := Callback(FIRST)] && s.m.active.None? && s.m.incoming.None? && !s.m.activeIncoming
      && s.nextThread == 3 && s.nextObj == 1
      && s.place == map[FIRST := Dropped(FIRST)] && s.peerEnded == {FIRST} && s.byes == multiset{}
  {
    var s;
    a := FirstCallEnded();
    a, s := Extend(a, Run(2, true));
    assert s.threads == map[2 := Callback(FIRST)] && s.place == map[FIRST := Dropped(FIRST)];
  }

  /** The manager is told, and a preview is dialled before the media callback runs. */
  lemma PreviewDialled() returns (a: seq<Action>)
    ensures
      var s := Reach(a);
      && s.threads == map[2 := Callback(FIRST)] && s.m.active == Some(Outbound(1)) && s.m.incoming.None?
      && s.place == map[FIRST := Dropped(FIRST), Outbound(1) := Up]
      && s.peerEnded == {FIRST} && s.byes == multiset{}
  {
    var s;
    a := ManagerTold();
    a, s := Extend(a, OnDial);
  }

  /** It does happen: the callback then drops the preview, an accepted dialog nobody will end. */
  lemma LateCallbackOrphans() returns (a: seq<Action>)
    ensures
      var s := Reach(a);
      && s.threads == map[] && s.m.active.None? && Outbound(1) in s.place && Orphaned(s, Outbound(1))
  {
    var s;
    a := PreviewDialled();
    a, s := Extend(a, Run(2, true));
    assert s.threads == map[];
  }

  // ----- A BYE overtakes the commit of an answer -----

  lemma ByeBeforeCommit() returns (a: seq<Action>)
    ensures
      var s := Reach(a);
      && s.threads == map[1 := AnswerDone(FIRST, "door")] && s.peerEnded == {FIRST} && 0 in s.adapters
      && s.m.active.None? && s.m.incoming == Some(FIRST) && s.m.incomingEntrypoint == "door"
  {
    var s;
    a := FirstCallAccepted();
    a, s := Extend(a, OnPeerBye(FIRST));
    assert s.threads == map[1 := AnswerDone(FIRST, "door"), 2 := PeerBye(FIRST)];
    a, s := Extend(a, Run(2, true));
    assert s.threads == map[1 := AnswerDone(FIRST, "door"), 2 := Callback(FIRST)];
    a, s := Extend(a, Run(2, false));
    assert s.threads == map[1 := AnswerDone(FIRST, "door")];
  }

  /** A call its peer ended before the answer committed is up with nobody left to drop it. */
  lemma DeadCallIsUp() returns (a: seq<Action>)
    ensures
      var s := Reach(a);
      s.threads == map[] && DeadUp(s, FIRST)
  {
    var s;
    a := ByeBeforeCommit();
    a, s := Extend(a, Run(1, true));
    assert s.threads == map[];
  }
}
