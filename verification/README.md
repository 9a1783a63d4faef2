# Protocols of the BTicino companion

A model of the concurrent protocols around one doorbell call and one media stream, and of the smaller
algorithms beside them, with proofs of what they keep.

Every section the program runs with a mutex held is one atomic step. Where the source updates an object in
place there is a class with the same fields, and each of its methods is proved against functions on the
object's value; the runs are built from those same functions, or tied to them by lemmas. Goroutines are
program counters between sections, `Reach(actions)` is the state after any finite interleaving, and responses,
BYEs, deliveries, admissions and closes are kept as history. Go slices are modelled with their backing arrays
where aliasing matters.

| file | what it models |
|---|---|
| `core_state.dfy` | the projected call and door state |
| `signaling_manager.dfy`, `incoming_dialog.dfy` | the owner of the SIP dialogs, and the inbound dialog adapter |
| `call_effects.dfy` | what each commit of the manager shows on the projected state |
| `call_protocol.dfy`, `call_responses.dfy` | manager, dialogs, callers, expiry, CANCEL, BYE, event drain and projector, interleaved; why each response is sent |
| `stream_coordinator.dfy`, `source_session.dfy` | the owner of the media source, and the session of one source |
| `stream_protocol.dfy`, `stream_invariants.dfy`, `stream_safety.dfy`, `stream_rules.dfy` | coordinator, fan-outs, consumers, sources, manager and event drain, interleaved: the model, its invariants, what is safe, who gets a stream and how it ends |
| `session_calls.dfy` | sessions and manager together: which call a session ends |
| `fanout.dfy`, `fanout_delivery.dfy`, `fan_views.dfy`, `keyframe.dfy` | the keyframe cache, the consumer list as a Go slice, deliveries interleaved with joins and leaves, how the views of a fan-out agree, keyframe detection |
| `ring_clip.dfy` | the sample table of a recorded ring |
| `ring_holder.dfy`, `webrtc_sessions.dfy` | who holds a stream lease, and that it is dropped once |
| `semver.dfy`, `stable_sort.dfy`, `release_tags.dfy` | release tags and their order |
| `bus_mapper.dfy`, `rate_limit.dfy`, `ringer_sync.dfy` | ring events from bus frames, claim attempts, the firmware reload |

Assumptions:

- Every inbound dialog is a new object with a nonempty Call-ID (section 8.1.1 of RFC 3261).
- The event sink is installed before the first INVITE and does not panic.
- Clock readings do not go backwards in processing order.
- Each source session is started once; its hangup counters are per start.
- `AVCC.Marshal` does not fail.
- `Respond(200)` returning an error means the call was not answered.
- The OpenWebNet meaning of a frame text, the RTP packets and the outcome of every I/O call are given by the
  environment, in every combination.

## Model

| member | source | states |
|---|---|---|
| CoreState.Projector.Apply | internal/core/state.go:80-214 | The event is accepted or rejected, and the fields end up, exactly as the field-by-field description of each event says; a rejected event changes nothing |
| CoreState.CallFieldsAreIndependent | internal/core/state.go:114-177 | The two call fields and the last end evolve on their own: a call event is accepted exactly when they accept it, and no other event reaches them |
| CoreState.ProjectorStaysCoherent | internal/core/state.go:80-94 | No event sequence, rejected events included, makes the projector hold two calls or a stale end beside a call, or makes the call state disagree with the fields it is derived from |
| CoreState.AnsweredCallLeavesNoRing | internal/core/state.go:250-270 | After a call is answered and hung up, whatever other sources reported in between, the state reads ringing exactly when another entrypoint rings |
| CoreState.RingEvents | internal/core/state.go:99-112 | A ring starts for any named entrypoint and is cleared by its own or by none, and nothing else of the state moves; anything else is rejected |
| CoreState.CallStarts | internal/core/state.go:114-130 | A call comes in exactly when it is named and there is none, and the last end is forgotten |
| CoreState.RingingCallEnds | internal/core/state.go:131-177 | An end is kept with its reason; an answer makes that very call the active one and, as a hangup does, ends the bus ring if it is the call's own; a decline leaves the bus ring on |
| CoreState.ActiveCallEnds | internal/core/state.go:158-177 | A hangup of the active call, under its own name, moves nothing else; under another name it is rejected |
| CoreState.PreviewEvents | internal/core/state.go:178-197 | One preview at a time, stopped under its own name |
| CoreState.SwitchEvents | internal/core/state.go:198-214 | The mute and voicemail events set exactly their own field |
| IncomingDialog.Adapter.RespondProvisional | internal/signaling/dialer.go:1119-1159 | A provisional response goes out only on an open dialog, which counts as ringing only if the write succeeded |
| IncomingDialog.Adapter.ClaimFinal | internal/signaling/dialer.go:1119-1159 | A final response is granted only on an open dialog, and granting it concludes the dialog |
| IncomingDialog.Adapter.EndPendingCall | internal/signaling/dialer.go:1302-1316 | A call is withdrawn exactly if it rang and is not concluded |
| IncomingDialog.ClaimIsExclusive | internal/signaling/dialer.go:1119-1159 | Once one caller may conclude a dialog, no other may answer, reject or withdraw it |
| IncomingDialog.WriteKeepsValid | internal/signaling/dialer.go:1183-1260 | The claimed final response keeps the history to provisionals followed by one final (section 17.2.1 of RFC 3261) and uses the claim up |
| IncomingDialog.DialogEvents | internal/signaling/dialer.go:1119-1316 | A dialog counts as rung once a provisional response went out, only a rung one is withdrawn, and only the body of an answer is kept |
| SignalingManager.Manager.OnInvite | internal/signaling/manager.go:190-252 | An INVITE is reserved exactly when no call is pending or up and its address resolves, with its event queued in the same section |
| SignalingManager.Manager.CommitAnswer | internal/signaling/manager.go:288-324 | An answer commits only while its dialog is still the pending one; otherwise the caller owes the accepted dialog a BYE |
| SignalingManager.Manager.DeclineCall | internal/signaling/manager.go:328-352 | Takes the pending dialog, whichever it is, and queues its decline |
| SignalingManager.Manager.HangUp | internal/signaling/manager.go:357-415 | The active dialog is handed out for a BYE, otherwise the ringing one for a rejection, never both |
| SignalingManager.Manager.HangUpCall | internal/signaling/manager.go:451-499 | The media path's hangup takes the active dialog and leaves a ringing call exactly as it is |
| SignalingManager.Manager.DropRemoteEnded | internal/signaling/manager.go:501-524 | The peer's BYE drops the active dialog and its event is queued; a ringing call is left alone |
| SignalingManager.Manager.ClearPending | internal/signaling/manager.go:593-622 | The pending dialog is cleared exactly if it is the expected one, or none was named |
| SignalingManager.Manager.EndIncoming | internal/signaling/manager.go:581-591 | A withdrawal clears whatever call is pending, an unknown reason counting as cancelled |
| SignalingManager.Manager.StartStream | internal/signaling/manager.go:660-686 | An outbound dialog is made only with no call pending or up; an answered inbound call serves the stream instead |
| SignalingManager.Manager.DrainEvents | internal/signaling/manager.go:726-770 | The drain loop hands the sink every queued event in commit order and then gives the drain back |
| SignalingManager.CommitKeepsValid | internal/signaling/manager.go:704-724 | Every operation keeps one dialog at most and a drainer for every queued event, and queues exactly its own event |
| SignalingManager.CommitAgrees | internal/signaling/manager.go:190-324 | One operation with its event moves the manager and the projected calls together, and the event is a valid transition |
| SignalingManager.AnsweredOnlyByEvent | internal/signaling/manager.go:535-543 | A call becomes answered only in the commit that queues its CallAnswered |
| CallEffects.HangupOfRingingShows | internal/signaling/manager.go:377-398 | On a projector that agrees with the manager, what the user's hangup of a ringing call queued leaves no ring of its entrypoint and no end to report |
| CallEffects.DeclineShows | internal/signaling/manager.go:328-352 | What a decline queued leaves the ring on the bus alone and reports no end |
| CallEffects.ClearShows | internal/signaling/manager.go:593-608 | What clearing a call queued shows it as ended, under its own name and for the reason given |
| CallEffects.ClearMisses | internal/signaling/manager.go:610-622 | A pending call that is not the expected one stays, and nothing is shown |
| CallEffects.InviteShows | internal/signaling/manager.go:190-252 | A reserved INVITE shows as the incoming call of its entrypoint, a refused one shows nothing |
| CallEffects.AnswerShows | internal/signaling/manager.go:288-324 | The committed answer shows the ringing call as the active one and ends its ring |
| CallEffects.LateAnswerShows | internal/signaling/manager.go:288-324 | The answer of a call no longer pending shows nothing and moves nothing |
| CallEffects.ActiveEndShows | internal/signaling/manager.go:451-524 | Every end of an answered call shows the same, the active call gone and nothing else; the end of a dialled preview shows nothing |
| CallEffects.RingingCallIsLeftAlone | internal/signaling/manager.go:451-524 | The media path's hangup and the peer's BYE never reach a ringing call |
| CallEffects.DialShows | internal/signaling/manager.go:660-686 | A dial shows nothing and goes through exactly when no call is pending or up |
| CallEffects.AdoptsTheShownCall | internal/signaling/manager.go:535-579 | A source adopts exactly the call the projector shows for its entrypoint, ringing or active, and the two probes say what it shows |
| CallProtocol.ProjectorAgrees | internal/signaling/manager.go:704-770 | In every interleaving, folding the undelivered events over the projector yields exactly the manager's pending and answered call; no call event is ever rejected; the projector stays coherent |
| CallProtocol.DeliveredExactlyOnce | internal/signaling/manager.go:704-770 | Delivered, in-flight and queued events together are the committed sequence; there is one drainer at most, and one whenever something is queued, re-entry from the sink included |
| CallProtocol.NoOrphanedDialog | internal/signaling/manager.go:262-324 | Never two calls; an accepted dialog is orphaned (unknown to the manager, held by no goroutine, sent no BYE, not ended by its own peer) exactly if it was dropped for the BYE of another dialog and its own peer sent none; no dialog gets two BYEs; responses stay disciplined; a withdrawn call never got a final response |
| CallProtocol.DropOrphansAnother | internal/signaling/dialer.go:307-345 | A notification of a peer's BYE orphans the active dialog it drops exactly if that is not the dialog the BYE was for and its own peer has not ended it either |
| CallProtocol.OnlyDropsOrphan | internal/signaling/manager.go:501-524 | Nothing but such a notification ever orphans a dialog |
| CallProtocol.LateCallbackOrphans | internal/signaling/dialer.go:326-342 | A run in which it happens: the peer ends a call, a preview is dialled, and the late media callback drops the preview without a BYE |
| CallProtocol.CommitRaisesTheDead | internal/signaling/manager.go:288-324 | A step leaves an answered call up although its peer ended it and the manager was told, exactly if it commits the answer of a call whose BYE the manager had been told of before |
| CallProtocol.DeadCallIsUp | internal/signaling/dialer.go:266-345 | A run in which a BYE overtakes the commit of the answer, and the ended call is left up with nobody to drop it |
| CallProtocol.QuiescentDialogs | internal/signaling/manager.go:190-324 | With all goroutines done, an accepted dialog is up, was sent its BYE or was ended by its own peer exactly unless it was dropped for another dialog's BYE, and every INVITE that ever came, refused ones included, is pending, has its final response, was withdrawn, or was cleared by another call's CANCEL |
| CallResponses.ResponsesHaveReasons | internal/signaling/manager.go:190-415 | In every interleaving each response is a 180 or has its reason in the run, for that very call while it was the pending one: 486 for an INVITE that found a call or no entrypoint, 200 for an answer, 603 for a decline or a hangup, 480 for its expiry, 500 for a 180 that could not be sent |
| CallProtocol.CancelLosesCall | internal/signaling/manager.go:581-591 | A withdrawal loses the pending call it clears, open and with no goroutine of any kind on it, exactly if that call was open and no goroutine, an answer in flight say, was on it |
| CallProtocol.LostForGood | internal/signaling/manager.go:581-591 | Whatever happens afterwards on this side, a lost call stays lost; only the far end's own CANCEL or BYE ever concludes it |
| CallProtocol.StrayCancel | internal/signaling/dialer.go:1015-1037 | A run in which that happens: a call withdrawn and declined at once takes the next call with it, which rings on lost |
| StreamCoordinator.StreamCoordinator.ReserveStream | internal/media/stream_coordinator.go:440-494 | Who may have the stream: refused, joined to the running stream, or given a fresh lease, with the whole new state |
| StreamCoordinator.StreamCoordinator.AttachSource | internal/media/stream_coordinator.go:520-539 | A source is attached exactly while its lease is current, even during its teardown |
| StreamCoordinator.StreamCoordinator.EndStartup | internal/media/stream_coordinator.go:565-610 | Startup ends only for the current lease, and promotes a preview whose call was answered, unless it is being torn down |
| StreamCoordinator.StreamCoordinator.PromoteRinging | internal/media/stream_coordinator.go:716-760 | A preview past startup is promoted now, one still starting is marked, any other lease is left alone |
| StreamCoordinator.StreamCoordinator.WriteBackchannel | internal/media/stream_coordinator.go:901-933 | A packet is admitted exactly from the talker of a live lease that has started and is no preview; the first consumer on the stream to speak becomes the talker |
| StreamCoordinator.StreamCoordinator.BeginStop | internal/media/stream_coordinator.go:935-981 | The first stop to find the lease current wins and takes the source; all others lose |
| StreamCoordinator.StreamCoordinator.EndStop | internal/media/stream_coordinator.go:1018-1047 | Only the current lease is cleared, and nothing of it but a late source is left behind |
| StreamCoordinator.StreamCoordinator.ObserveControlTrack | internal/media/stream_coordinator.go:1063-1130 | A start frame belongs to the lease that is starting, and to an external stream only when there is no lease |
| StreamCoordinator.StreamCoordinator.ObserveControlStop | internal/media/stream_coordinator.go:1083-1113 | A stop frame ends a lease only past startup and behind a start frame of that lease |
| StreamInvariants.StepKeepsInv | internal/media/stream_coordinator.go:358-760 | Every section of every goroutine and of the environment keeps all invariants of the stream protocol, whatever the other goroutines are doing |
| StreamSafety.NoStuckPreview | internal/media/stream_coordinator.go:565-610 | With startup over, the call answered and up, its CallAnswered delivered and no teardown, the lease is no preview, and one born a preview was promoted exactly once, however the probes, the commits and the event interleave |
| StreamSafety.PromotedOnceBeforeUplink | internal/media/stream_coordinator.go:716-760 | A lease is promoted once at most and only if born a preview, and no uplink packet of a preview passes before |
| StreamSafety.UplinkIsExclusive | internal/media/stream_coordinator.go:901-933 | The talker is on the current fan-out or between its removal and its clear; everyone else who spoke on the lease is off the stream and not admitted |
| StreamSafety.UplinkPassesThroughNobody | internal/media/stream_coordinator.go:673-709 | No step hands the uplink from one consumer straight to another |
| StreamSafety.LeftForGood | internal/media/fanout.go:103-121 | A consumer that left its stream is never on it again |
| StreamSafety.JoinersMeetALiveStream | internal/media/stream_coordinator.go:416-434 | An open fan-out is that of the current lease with no teardown begun, so no join lands on a dying stream; a stream its last consumer left is closed; an open startup is the current lease's or about to be finished; the companion owns the stream exactly while there is a lease |
| StreamSafety.ClosedFansShrink | internal/media/fanout.go:50-121 | In every run a closed fan-out stays closed and gains nobody |
| StreamSafety.WonOnce | internal/media/stream_coordinator.go:935-991 | Each lease is won by one stop at most; a stop frame wins only behind a start frame seen during that lease's startup, and a call-ending stop only after the last Release |
| StreamSafety.BorrowedCallsSurvive | internal/media/stream_coordinator.go:54-66 | A session hangs up a call it does not own only if the last consumer of the stream that asked it went through Release, its own stream unless its source was attached during a teardown; per start it hangs up or reports the end once at most |
| StreamSafety.StopClosesItsOwnSource | internal/media/stream_coordinator.go:520-539 | A stop closes the source of its own lease exactly when that source was not attached during a teardown |
| StreamSafety.ReleasedByLastConsumer | internal/media/stream_coordinator.go:661-709 | A stream counts as released only by the removal, through Release, of its one remaining consumer, which closes it |
| StreamSafety.LateSourceIsHungUp | internal/media/stream_coordinator.go:993-1047 | A run in which a source attached late outlives its lease, and releasing the next lease hangs up the borrowed call of the first |
| StreamRules.ReserveOutcome | internal/media/stream_coordinator.go:440-494 | In every run an acquire is refused exactly for a ring its mode does not allow, an external stream without a call, or a stream it cannot share; an idle coordinator grants a new lease, a preview exactly if the call rings; a sharing acquire joins the running stream exactly if that is shared, of its own entrypoint and not stopping |
| StreamRules.DoorsMatch | internal/media/stream_coordinator.go:416-494 | In every run each consumer on a stream asked for the entrypoint of that stream, in a mode that allows the ring its probe saw, and two share a stream only if both may |
| StreamRules.JoinedAfterStartup | internal/media/stream_coordinator.go:416-434 | Whoever joins a running stream joins after a startup that succeeded |
| StreamRules.PromotedOnlyForAnswer | internal/media/stream_coordinator.go:716-760 | A lease is promoted only if its answer was delivered, or seen by the probe at the end of startup, while it was current; a preview is a lease whose acquire saw the ring |
| StreamRules.StartupEnds | internal/media/stream_coordinator.go:565-610 | The end of startup promotes exactly an answered preview that is not torn down; a promotion during startup waits for it |
| StreamRules.WhatTearsDown | internal/media/stream_coordinator.go:821-875 | The end of a ring tears down exactly an unpromoted preview, the end of the call any lease, and a stop frame exactly a lease past startup with a start frame of its own |
| StreamRules.ControlFrames | internal/media/stream_coordinator.go:1063-1130 | A start frame counts only during startup, or without a lease, where it shows an external stream until a stop frame |
| StreamRules.AdmittedExactly | internal/media/stream_coordinator.go:901-933 | In every run a packet is let through exactly from the talker, or the first to speak on the stream with nobody talking, on a started, promoted lease with a source and no teardown |
| StreamRules.LetsGo | internal/media/stream_coordinator.go:661-682 | Release and Leave of a consumer whose lease is over do nothing; otherwise it goes on to leave, with its own cause |
| StreamRules.LastOutTearsDown | internal/media/stream_coordinator.go:673-709 | A consumer comes off its stream once; the last one out closes it and tears the lease down for the cause it left for, anybody else leaves both alone |
| StreamRules.ReleaseAsksSource | internal/media/stream_coordinator.go:935-1010 | In every run a teardown won by a Release asks the source to end the call before it closes it |
| StreamRules.LeaseEnds | internal/media/stream_coordinator.go:520-539 | A won stop takes the source, a cleared lease leaves the coordinator idle, and an attached source is that of its lease |
| StreamRules.OthersLeaveLease | internal/media/stream_coordinator.go:520-610 | A lease that is not current moves nothing |
| SourceSession.Session.FailStart | internal/media/source_session.go:138-173 | A failed start hangs up only a call it dialled that the peer has not ended, and reports one the peer did |
| SourceSession.Session.CloseSession | internal/media/source_session.go:343-407 | Close hangs up only a started call that nobody ended, and a borrowed one only if told to |
| SourceSession.Session.RemoteDialogEnded | internal/media/source_session.go:409-431 | The peer's BYE is reported only for a started session, and a starting one is cancelled |
| SourceSession.EndedAtMostOnce | internal/media/source_session.go:110-270 | In every interleaving each start hangs up or reports the end of its call once at most in all, and a borrowed call is hung up only after EndCallOnClose |
| SourceSession.FlagsFollowStart | internal/media/source_session.go:110-340 | In every run a session is told to end its call for the current start alone, and waits for the answer exactly while it has video only, that is from the start on an unanswered call to the audio |
| SourceSession.NoHangupAfterPeerEnd | internal/media/source_session.go:409-431 | Once the peer ended the call, nothing that comes before the next start hangs it up |
| SourceSession.ByeIsTold | internal/media/source_session.go:138-173 | Whenever the first BYE of the peer comes, the SIP layer has been told by the end of that start exactly if the session was started, or its start had still to look at its context and there is a dialog; with the dialog there already, that is while media is requested or a failed start is about to be cleaned up |
| SourceSession.UnseenByeIsMissed | internal/media/source_session.go:259-269 | A BYE that comes after that look is told to nobody and answered by nobody, whatever comes before the next start |
| SourceSession.CloseTellsSip | internal/media/source_session.go:343-407 | Closing a started session that owns its call, or whose last consumer let go, hangs the call up exactly when no BYE of the peer reached the session first |
| SourceSession.CloseDuringStartup | internal/media/source_session.go:343-355 | A Close during startup has ended the call by the end of that start exactly if the start had still to look at its context and the session has a dialog of its own by then; past that look the session is left started exactly if the start succeeds |
| SourceSession.LateCloseLeavesCallUp | internal/media/source_session.go:259-269 | A run in which a Close comes after that look: the session stays started, its dialled call up, and nobody ends it |
| SourceSession.LatePeerEndIsMissed | internal/media/source_session.go:259-269 | A run in which such a BYE comes after the last look at the context, and nobody tells the SIP layer |
| SessionCalls.StepLetsGo | internal/signaling/manager.go:357-524 | A dialog the manager holds is let go exactly by the user's hangup or decline, a withdrawal or expiry that names it or names none, a media hangup while it is active, or the news of a peer's BYE, and is never held again |
| SessionCalls.HangupEndsAnother | internal/media/source_session.go:343-407 | Over all runs of sessions with the manager, a session's hangup ends the call the session dialled or borrowed until one of those actions takes that call, leaves it alone while it only rings, and from then on ends another call exactly if one is up |
| SessionCalls.AnsweredCallIsHungUp | internal/signaling/manager.go:357-375 | A run in which the user hangs a preview up, a call is answered meanwhile, and closing the preview's session hangs that call up |
| Fanout.Fanout.Add | internal/media/fanout.go:50-76 | A consumer is appended exactly if the fan-out is still open at the end, after receiving the cache |
| Fanout.Fanout.Remove | internal/media/fanout.go:103-121 | The first consumer of that id leaves and the last one out closes the fan-out, with every earlier snapshot intact |
| Fanout.Fanout.Video | internal/media/fanout.go:161-172 | One packet is remembered, and the calls it makes are those `FanViews` describes |
| Fanout.Fanout.Perform | internal/media/fanout.go:152-159 | Through any sequence of joins, leaves, closes, deliveries and replays, every list ever returned by snapshot reads as it did, on Go slices with shared backing arrays |
| Fanout.CacheIsRecentVideo | internal/media/fanout.go:202-220 | Over any video history the cache is a suffix of it of at most 512 KiB, counted right, headed by a keyframe start with which every keyframe start in it shares its timestamp |
| Fanout.CacheHoldsWholeGroup | internal/media/fanout.go:202-220 | From a fresh keyframe on, within the limit, the cache is everything received since |
| FanoutDelivery.GapFreeJoin | internal/media/fanout.go:50-97 | In every interleaving the video calls a consumer has got since its latest join or replay are an unbroken piece of the history that begins with exactly what the cache held at that moment (the cached keyframe, or nothing when the cache was empty), and one still on the stream misses nothing |
| FanoutDelivery.ClosedListShrinks | internal/media/fanout.go:103-150 | A closed list only shrinks, and the last one out closes it, also in the middle of a delivery |
| FanViews.VideoReachesEveryTaker | internal/media/fanout.go:161-172 | A packet is handed to exactly the consumers of the list that take video, in list order |
| FanViews.VideoBringsOnce | internal/media/fanout.go:161-172 | With distinct ids each of them gets it once, and everybody else nothing |
| FanViews.VideoIsOneDelivery | internal/media/fanout.go:161-172 | A delivery of the interleaved system, left to itself, makes exactly the calls of Video and leaves the same cache and list |
| FanViews.JoinIsAdd | internal/media/fanout.go:50-76 | And a join makes exactly the calls of Add and lists the same consumer |
| FanViews.WithoutDropsId | internal/media/fanout.go:103-121 | Cutting a consumer out of the Go slice is dropping its id from the list the deliveries are proved on |
| FanViews.RemoveIsWithoutConsumer | internal/media/fanout.go:103-121 | And is the removal of the stream protocol, closing by the last one out included |
| FanViews.AddIsWithConsumer | internal/media/fanout.go:50-76 | Appending a new consumer to the slice is the protocol's join |
| Keyframe.StartsKeyframe | internal/media/fanout.go:225-256 | The offset loop stays in bounds, ends on arbitrary bytes and walks the aggregation units one by one |
| Keyframe.StapStartsKeyframe | internal/media/fanout.go:235-249 | A STAP-A of nonempty units starts a keyframe exactly if one of them is an IDR slice or an SPS (section 5.7.1 of RFC 6184) |
| Keyframe.FragmentStartsKeyframe | internal/media/fanout.go:250-251 | However a unit is fragmented, only its first FU-A does, and only for a key unit (section 5.8 of RFC 6184) |
| Keyframe.SingleStartsKeyframe | internal/media/fanout.go:225-256 | A unit sent alone does exactly if it is a key unit |
| RingClip.Scan | internal/media/ringclip.go:380-420 | The loop finds the last parameter sets, whether there is an IDR, and the media units in order |
| RingClip.ClipWriter.AddAccessUnit | internal/media/ringclip.go:380-471 | One access unit starts, extends, completes or leaves the clip as described on its value |
| RingClip.AccessUnitKeepsValid | internal/media/ringclip.go:380-471 | An access unit completes the clip, is dropped and counted, or adds exactly its media bytes; pts start at 0 with an IDR and strictly increase below the limit, and the size is the number of payload bytes, at most 8 MiB |
| RingClip.WrappedDifference | internal/media/ringclip.go:420-471 | The signed 32-bit difference is the true one exactly within half the range (section 5.1 of RFC 3550) |
| RingClip.TrueTimeline | internal/media/ringclip.go:380-471 | Across a wrap of the timestamps, every pts is the true distance of a recorded unit from the first, as long as the units between start and completion lie within half the range of it; those before and after may lie anywhere |
| RingClip.AccessUnitStoredAtTrueTime | internal/media/ringclip.go:420-471 | A unit neither dropped nor final is stored at its own true time |
| RingClip.RunningUnit | internal/media/ringclip.go:422-471 | Once the clip runs, a unit is dropped exactly if it keeps the format and has no media or was sampled before the last sample, and completes the clip exactly if it changes the format or has media that is 15 s late or, in order, no longer fits |
| RingClip.WaitingUnit | internal/media/ringclip.go:404-421 | A waiting clip starts exactly at a unit with an IDR picture when both parameter sets have come, and drops every unit before |
| RingClip.RecordingContainsStored | internal/media/ringclip.go:380-471 | In every recording each sample holds the media of the access units stored at its time, in order, and is marked IDR exactly if one of them has an IDR picture |
| RingClip.IdrIsFound | internal/media/ringclip.go:380-403 | An access unit counts as IDR exactly if one of its units is of that type |
| RingClip.MediaConcat | internal/media/ringclip.go:380-403 | The media of two runs of units are those of the first and then those of the second; with `MediaOfOne`, the units that are no parameter set, delimiter or empty, in order |
| RingClip.MediaOfOne | internal/media/ringclip.go:380-403 | A unit is media unless it is empty, a parameter set or a delimiter |
| RingClip.PayloadRoundTrip | internal/media/ringclip.go:440-471 | A payload parses back into the very units it was made of |
| RingClip.ParameterSetsAreLatest | internal/media/ringclip.go:380-421 | A waiting clip knows the latest parameter sets of the run, and keeps those it starts with |
| RingClip.DurationsReproducePts | internal/media/ringclip.go:473-521 | Durations are positive and fit 32 bits, the first i sum to pts[i], and the total is under 30 s and does not overflow |
| RingHolder.Holder.Swap | internal/app/ringholder.go:77-149 | A new generation begins, and what was held is handed out and no longer held |
| RingHolder.Holder.Finish | internal/app/ringholder.go:102-133 | An acquire keeps its lease in the holder exactly if its generation is still the current one |
| RingHolder.NewestIsKept | internal/app/ringholder.go:102-133 | In every interleaving an acquire ends up held exactly if no ring began or ended since its own; otherwise its clip is closed and its lease left |
| RingHolder.RingBegins | internal/app/ringholder.go:77-100 | A ring hands back what was held and begins one acquire under the new generation |
| RingHolder.RingEndHandsBack | internal/app/ringholder.go:134-149 | The end of a ring hands back what was held |
| RingHolder.EveryLeaseIsLeftOnce | internal/app/ringholder.go:77-149 | In every interleaving each lease is held, with one goroutine, or left exactly once; a held lease is never overwritten |
| RingHolder.NothingLeaks | internal/app/ringholder.go:77-149 | With all goroutines done, every lease but the held one was left and every clip but the held one's is closed |
| WebrtcSessions.SessionObject.TakeLease | internal/media/webrtc.go:959-970 | A closed session refuses the lease and says how its close wanted it dropped |
| WebrtcSessions.SessionTable.CloseSessionWith | internal/media/webrtc.go:849-874 | Closing by id takes the session out of the table and hands out its lease, once |
| WebrtcSessions.FirstCloseDecides | internal/media/webrtc.go:849-874 | In every run a session is closed exactly by a close of the id that names it, and the first one decides how its lease is dropped |
| WebrtcSessions.LeasesAreDroppedAsClosed | internal/media/webrtc.go:449-474 | In every interleaving each acquired lease is held or bound for one drop, of the kind its session's close chose, even when the close came first |
| WebrtcSessions.NoLeaseLeftBehind | internal/media/webrtc.go:849-874 | With its goroutines done, a closed session's lease was dropped once as chosen, and an open session holds its lease and can be found |
| Semver.IsNumericId | internal/system/update.go:565-573 | Nonempty and nothing but digits |
| Semver.CompareParts | internal/system/update.go:524-562 | The first differing identifier decides, numbers below text, and a longer list beats its prefix |
| Semver.NewerVersion | internal/system/update.go:494-513 | The program's field loop is the lexicographic comparison of the captured groups; an unmatched tag is never newer |
| Semver.VersionsAreOrdered | internal/system/update.go:494-563 | The comparison is a total order on captured versions, whatever their identifiers, so a sort by it is well defined |
| Semver.NumeralsCompareByValue | internal/system/update.go:494-513 | Without leading zeros, length-then-text is numeric order |
| Semver.NumericOrderExactly | internal/system/update.go:541-556 | With leading zeros it is numeric order exactly when the two are equally long or the longer is still the greater without its zeros |
| Semver.ListsOrderedExactly | internal/system/update.go:524-562 | On identifier lists of any form the program's order is that of section 11 exactly under the condition stated on the first two identifiers that differ |
| Semver.LeadingZeroMisorders | internal/system/update.go:541-556 | An identifier pair, 01 and 2, that the program orders the wrong way round |
| Semver.NewerIsHigherPrecedence | internal/system/update.go:494-563 | On versions valid under section 9 of Semantic Versioning 2.0.0, newer is higher precedence under section 11 |
| StableSort.Sort | internal/system/update.go:310-326 | For any strict weak order a sorted rearrangement that keeps equals in order exists and is found |
| ReleaseTags.TagIsMatched | internal/system/update.go:492-513 | A tag of the grammar captures its version, whatever its v and build metadata |
| ReleaseTags.OnlyTagsAreMatched | internal/system/update.go:492-513 | Nothing else is matched |
| ReleaseTags.NewerIgnoresDecoration | internal/system/update.go:492-513 | The v prefix and build metadata never change which release is newer |
| ReleaseTags.NewerRanksTags | internal/system/update.go:310-326 | On matching tags newer-than is a strict weak order |
| ReleaseTags.TagsRankedExactly | internal/system/update.go:492-563 | On any two matching tags, newer-than both ways is the precedence of section 11 exactly when their versions differ in the numeric fields, one is a release, or the condition of ListsOrderedExactly holds of their pre-releases |
| ReleaseTags.LeadingZeroMisranksTags | internal/system/update.go:492-513 | The tag 1.0.0-01 counts as newer than 1.0.0-2 and has the lower precedence |
| ReleaseTags.UnmatchedTagBreaksRanking | internal/system/update.go:310-326 | A tag the pattern rejects is unranked against both of two ranked releases, so the filter before the sort is needed |
| ReleaseTags.PrereleaseManifests | internal/system/update.go:310-326 | The matching pre-releases, newest first, equal versions in the order they came, none lost or added |
| BusMapper.Mapper.Duplicate | internal/openwebnet/mapper.go:126-146 | The pruning loop removes exactly the expired frames and the answer is that of the pruned memory |
| BusMapper.Mapper.MapFrame | internal/openwebnet/mapper.go:51-124 | The events and the new memory of one frame |
| BusMapper.DuplicateIsRecent | internal/openwebnet/mapper.go:126-146 | In every run the pruned memory answers exactly whether this frame was seen within 300 ms in the full history |
| BusMapper.RingsAlternateAndApply | internal/openwebnet/mapper.go:51-124 | Ring starts and clears alternate, each clear naming the ring before it, and the projector never rejects one, whatever events of other sources interleave |
| BusMapper.StopEndsRing | internal/openwebnet/mapper.go:80-123 | A fresh stop frame ends the ring exactly unless the ring began within 1 s of a stop frame and less than 1.5 s ago |
| BusMapper.RingStartRings | internal/openwebnet/mapper.go:80-98 | In every run a fresh ring start with no ring on gives exactly one RingStarted, for the entrypoint it belongs to, and makes it the ring that is on; with a ring on, or nothing to ring for, it gives nothing |
| BusMapper.ResolvedBelongs | internal/openwebnet/mapper.go:148-169 | That entrypoint is the configured doorbell, else the one of the frame's address, else of its view address, else the only one |
| BusMapper.SwitchFramesSwitch | internal/openwebnet/mapper.go:100-124 | A fresh mute, unmute or voicemail frame gives exactly its own event and moves no ring |
| BusMapper.RepeatedFrameIsSilent | internal/openwebnet/mapper.go:60-79 | A frame seen within 300 ms gives nothing and moves no ring |
| RateLimit.Limiter.Claim | internal/auth/store.go:157-165 | One claim purges exactly the expired windows and is then allowed exactly while its window has room |
| RateLimit.Limiter.RemoveExpiredAttempts | internal/auth/store.go:437-443 | Exactly the expired windows go |
| RateLimit.PurgingIsInvisible | internal/auth/store.go:437-443 | Purging never changes any decision of any run |
| RateLimit.FirstFiveAreAllowed | internal/auth/store.go:411-426 | In every ordered run a claim is allowed exactly if it is among the first five of its source since the opening of its window, whatever other sources do |
| RateLimit.EarlierPurgeIsAbsorbed | internal/auth/store.go:99-133 | The purge a new challenge makes is absorbed by the next claim's own purge |
| RateLimit.AtMostNineAttempts | internal/auth/store.go:411-426 | In any half-open interval of window length a source is allowed at most nine claims |
| RateLimit.NineAttemptsHappen | internal/auth/store.go:411-426 | A run that reaches nine, so the bound is tight |
| RingerSync.WakeUpIsNeverLost | internal/ringersync/sync.go:97-160 | In every interleaving a pending reload has its token buffered, a runner that will look, or an Unmute about to wake one, unless the program is stopping |
| RingerSync.MarkIsHonoured | internal/ringersync/sync.go:60-160 | A marked unmute stays pending until a Mute or a reload begun after it |
| RingerSync.ReloadIsWarranted | internal/ringersync/sync.go:113-160 | In every run, whenever a reload begins, the runner had seen it pending, then the clock at or past the due time it read, and then got the answer that the intercom is not busy, each the latest of its kind |
| RingerSync.HeldUpRunnerWaits | internal/ringersync/sync.go:113-160 | A busy intercom or a clock short of the due time sends the runner back to wait |
| RingerSync.CommandsSetPending | internal/ringersync/sync.go:60-95 | An unmute sets the reload due, a mute takes it back, and neither touches the token |
| RingerSync.SomethingIsEnabled | internal/ringersync/sync.go:97-160 | With a reload pending and due and the intercom idle, some step of the system's own is always enabled |
| RingerSync.EveryStepHelps | internal/ringersync/sync.go:97-160 | And every enabled step of its own begins the reload or comes closer to it |
| RingerSync.PendingReloadBegins | internal/ringersync/sync.go:97-160 | So every schedule of its own steps begins the reload, within a number of them known beforehand |

## Left out

- Sockets, GStreamer, HTTP, WebSocket, mDNS, HomeKit, YAML, files and the web UI: I/O and foreign libraries, present only as outcomes the environment chooses.
- Contexts and timers: expiry, cancellation, startup budgets and ticks are steps that may come at any time; only the mapper, the limiter and the reload have clocks.
- SIP transactions, ICE and the H.264 depacketizer: only their results appear.
- CallProtocol.NoOrphanedDialog: an accepted dialog is not always cared for, because `RemoteDialogEnded` drops whatever is active and may run late for a BYE of another dialog; `CallProtocol.DropOrphansAnother` says exactly when a drop orphans, and `CallProtocol.LateCallbackOrphans` is such a run.
- CallProtocol.CommitRaisesTheDead: a call whose peer ended it is not always dropped; the lemma says exactly when it is left up, and `CallProtocol.DeadCallIsUp` is such a run.
- CallProtocol.CancelLosesCall: a CANCEL does not always end only its own call, because `EndIncoming` matches no dialog; the lemma says exactly when another call is lost, and `CallProtocol.StrayCancel` is such a run.
- SourceSession.ByeIsTold: the SIP layer is not always told of the peer's end, because a BYE after the last look at the context is missed; the lemma says exactly when it is told, and `SourceSession.LatePeerEndIsMissed` is such a run. It speaks of one BYE at a time.
- SourceSession.CloseDuringStartup: a Close does not always end the call of a starting session, because one that comes after the last look at the context is only waited out; the lemma says exactly when it does, and `SourceSession.LateCloseLeavesCallUp` is such a run.
- SessionCalls.HangupEndsAnother: a session's hangup does not always end the session's own call, because `HangupCall` takes whatever is active; the lemma says exactly when, and `SessionCalls.AnsweredCallIsHungUp` is such a run.
- When the media callback of a BYE reports to the manager, and whether it does, is free in `CallProtocol`; the session's part in it is in `SourceSession`.
- StreamSafety.BorrowedCallsSurvive: a source attached while its lease is torn down is not covered by its own lease's consumers, because attaching ignores `stopping` and clearing a lease leaves the source; `StreamSafety.StopClosesItsOwnSource` says exactly when a stop closes its own source, and `StreamSafety.LateSourceIsHungUp` is a run of the other case.
- Semver.NewerIsHigherPrecedence: not stated for identifiers with leading zeros, which the pattern lets through although section 9 forbids them; `ReleaseTags.TagsRankedExactly` says when they are still in order, and `ReleaseTags.LeadingZeroMisranksTags` is a pair that is not.
- Starting a source: whether a start succeeds, fails or times out is free of what its session does, so the runs include more than the program's.
- The fan-out inside `StreamProtocol` is its set of consumers and its closed flag; the order, the slices and the deliveries are in `Fanout` and `FanoutDelivery`, and `FanViews` ties the three for the distinct ids the coordinator issues.
- `FanoutDelivery` works on lists of consumer ids: that deliveries run over a snapshot is its step structure, that snapshots do not change is proved in `Fanout`, and that its calls are those of `Fanout` in `FanViews`.
- Track timestamps, stream health and the stall rule: a stall is a step that may come at any time.
- The hangup and call-end observers, and how many times and in which order consumers and state observers are told.
- Counter wrap-around of lease, consumer and generation numbers: they are 64 bits wide in the program and unbounded here. The projector's revision does wrap.
- RingerSync.PendingReloadBegins: Run and its wait loop are program counters rather than loops, because other goroutines act between their sections; that the due time is not looked at again before the reload is kept as it is in the program.
- The frame predicates of the bus, and the mapper's filter for messages that are not frames.
- The sorting library: `StableSort.Sort` is an insertion sort with the contract of a stable sort.
- Liveness of ring clearing: duplicate stop frames can suppress it for as long as they come.
- Bearer tokens, claim codes, challenges and configuration: cryptography and storage.
