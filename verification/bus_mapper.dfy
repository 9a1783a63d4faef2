/** The bus mapper (internal/openwebnet/mapper.go): ring, mute and voicemail events out of bus frames.
    Times are in milliseconds.  What a frame says is a pure function of its text, kept as a
    parameter; the mapper's own memory is what is modelled. */
module BusMapper {
  import opened Prelude
  import C = CoreState

  const DUPLICATE_WINDOW: int := 300
  const STOP_BURST_BEFORE_RING: int := 1000
  const STALE_STOP_WINDOW: int := 1500

  /** What the frame predicates say of a frame; several may hold, and the mapper asks in order. */
  datatype Meaning = Meaning(
    ringStart: bool,
    stop: bool,
    muted: bool,
    unmuted: bool,
    voicemail: Option<bool>,
    address: string,
    viewAddress: string)

  /** The configuration: the doorbell's entrypoint if it names one, and entrypoints by address. */
  datatype Config = Config(doorbell: string, entrypoints: map<string, string>, meaning: string -> Meaning)

  function Lookup(entrypoints: map<string, string>, address: string): string {
    if address in entrypoints then entrypoints[address] else ""
  }

  /** The entrypoint a ring frame belongs to, or none. */
  function Resolve(c: Config, raw: string): string {
    var m := c.meaning(raw);
    if c.doorbell != "" then c.doorbell
    else if Lookup(c.entrypoints, m.address) != "" then Lookup(c.entrypoints, m.address)
    else if Lookup(c.entrypoints, m.viewAddress) != "" then Lookup(c.entrypoints, m.viewAddress)
    else if |c.entrypoints| == 1 then Sole(c.entrypoints)
    else ""
  }

  function Sole(entrypoints: map<string, string>): string
    requires |entrypoints| == 1
  {
    SoleKey(entrypoints.Keys);
    var address :| address in entrypoints;
    entrypoints[address]
  }

  lemma SoleKey(keys: set<string>)
    requires |keys| == 1
    ensures exists k :: keys == {k}
  {
    var k :| k in keys;
    assert |keys - {k}| == 0;
    assert keys == {k};
  }

  datatype State = State(
    recent: map<string, int>,
    active: string,
    lastStop: Option<int>,
    ignoreStopsUntil: Option<int>)

  const INITIAL := State(map[], "", None, None)

  function Pruned(recent: map<string, int>, now: int): map<string, int> {
    map raw | raw in recent && now - recent[raw] <= DUPLICATE_WINDOW :: recent[raw]
  }

  predicate IsDuplicate(recent: map<string, int>, raw: string, now: int) {
    raw in recent && now - recent[raw] <= DUPLICATE_WINDOW
  }

  /** A ring start this close to a stop frame restarts a ring whose stop frames still come. */
  predicate Restarts(s: State, now: int) {
    s.lastStop.Some? && now - s.lastStop.value <= STOP_BURST_BEFORE_RING
  }

  predicate IgnoresStop(s: State, now: int) {
    s.ignoreStopsUntil.Some? && now < s.ignoreStopsUntil.value
  }

  datatype Outcome = Outcome(state: State, events: seq<C.Event>)

  /** What a frame that is not a duplicate does. */
  function React(c: Config, s: State, raw: string, now: int): Outcome {
    var m := c.meaning(raw);
    if m.ringStart then
      var id := Resolve(c, raw);
      if s.active != "" || id == "" then Outcome(s, [])
      else
        Outcome(s.(active := id,
                   ignoreStopsUntil := if Restarts(s, now) then Some(now + STALE_STOP_WINDOW) else s.ignoreStopsUntil),
                [C.RingStarted(id)])
    else if m.muted then Outcome(s, [C.AudioMuted])
    else if m.unmuted then Outcome(s, [C.AudioUnmuted])
    else if m.voicemail.Some? then
      Outcome(s, [if m.voicemail.value then C.VoicemailEnabled else C.VoicemailDisabled])
    else if m.stop && s.active != "" && !IgnoresStop(s, now) then
      Outcome(s.(active := ""), [C.RingCleared(s.active)])
    else Outcome(s, [])
  }

  function Map(c: Config, s: State, raw: string, now: int): Outcome {
    var stopped := if c.meaning(raw).stop then s.(lastStop := Some(now)) else s;
    var seen := stopped.(recent := Pruned(s.recent, now)[raw := now]);
    if IsDuplicate(s.recent, raw, now) then Outcome(seen, []) else React(c, seen, raw, now)
  }

  class Mapper {
    const config: Config
    var recentFrames: map<string, int>
    var activeEntrypoint: string
    var lastStop: Option<int>
    var ignoreStopsUntil: Option<int>

    ghost function View(): State
      reads this
    {
      State(recentFrames, activeEntrypoint, lastStop, ignoreStopsUntil)
    }

    constructor (config: Config)
      ensures View() == INITIAL && this.config == config
    {
      this.config := config;
      recentFrames, activeEntrypoint, lastStop, ignoreStopsUntil := map[], "", None, None;
    }

    method Duplicate(raw: string, now: int) returns (duplicate: bool)
      modifies this`recentFrames
      ensures recentFrames == Pruned(old(recentFrames), now)[raw := now]
      ensures duplicate == IsDuplicate(old(recentFrames), raw, now)
    {
      var frames := recentFrames.Keys;
      while frames != {}
        invariant frames <= recentFrames.Keys <= old(recentFrames).Keys
        invariant forall f <- recentFrames :: recentFrames[f] == old(recentFrames)[f]
        invariant forall f <- old(recentFrames) | f !in frames ::
                    f in recentFrames <==> now - old(recentFrames)[f] <= DUPLICATE_WINDOW
        decreases frames
      {
        var frame :| frame in frames;
        frames := frames - {frame};
        if now - recentFrames[frame] > DUPLICATE_WINDOW {
          recentFrames := recentFrames - {frame};
        }
      }
      assert recentFrames == Pruned(old(recentFrames), now);
      duplicate := raw in recentFrames && now - recentFrames[raw] <= DUPLICATE_WINDOW;
      recentFrames := recentFrames[raw := now];
    }

    method MapFrame(raw: string, now: int) returns (events: seq<C.Event>)
      modifies this
      ensures Outcome(View(), events) == Map(config, old(View()), raw, now)
    {
      var m := config.meaning(raw);
      if m.stop {
        lastStop := Some(now);
      }
      var duplicate := Duplicate(raw, now);
      if duplicate { return []; }
      if m.ringStart {
        if activeEntrypoint != "" { return []; }
        var id := Resolve(config, raw);
        if id == "" { return []; }
        activeEntrypoint := id;
        if lastStop.Some? && now - lastStop.value <= STOP_BURST_BEFORE_RING {
          ignoreStopsUntil := Some(now + STALE_STOP_WINDOW);
        }
        return [C.RingStarted(id)];
      }
      if m.muted { return [C.AudioMuted]; }
      if m.unmuted { return [C.AudioUnmuted]; }
      if m.voicemail.Some? {
        return [if m.voicemail.value then C.VoicemailEnabled else C.VoicemailDisabled];
      }
      if m.stop {
        if activeEntrypoint == "" || (ignoreStopsUntil.Some? && now < ignoreStopsUntil.value) { return []; }
        events := [C.RingCleared(activeEntrypoint)];
        activeEntrypoint := "";
        return;
      }
      events := [];
    }
  }

  // ----- Whole runs -----

  datatype Seen = Seen(raw: string, at: int)

  /** `seen` is every frame so far, duplicates included, `rings` every ring event emitted, and
      `startedAt` and `restarted` describe the latest ring. */
  datatype Sys = Sys(
    s: State,
    projector: C.State,
    now: int,
    seen: seq<Seen>,
    rings: seq<C.Event>,
    startedAt: int,
    restarted: bool)

  const START := Sys(INITIAL, C.INITIAL, 0, [], [], 0, false)

  /** A frame after a pause, or an event the projector gets from somewhere else. */
  datatype Action = Frame(raw: string, pause: nat) | OtherEvent(event: C.Event)

  predicate IsRing(e: C.Event) {
    e.RingStarted? || e.RingCleared?
  }

  /** When a frame of this text was last seen. */
  function LastSeen(seen: seq<Seen>, raw: string): Option<int> {
    if seen == [] then None
    else if seen[|seen| - 1].raw == raw then Some(seen[|seen| - 1].at)
    else LastSeen(seen[..|seen| - 1], raw)
  }

  /** When a stop frame was last seen. */
  function LastStop(c: Config, seen: seq<Seen>): Option<int> {
    if seen == [] then None
    else if c.meaning(seen[|seen| - 1].raw).stop then Some(seen[|seen| - 1].at)
    else LastStop(c, seen[..|seen| - 1])
  }

  ghost predicate SeenSince(seen: seq<Seen>, raw: string, from: int) {
    exists i | 0 <= i < |seen| :: seen[i].raw == raw && seen[i].at >= from
  }

  ghost predicate StopSince(c: Config, seen: seq<Seen>, from: int) {
    exists i | 0 <= i < |seen| :: c.meaning(seen[i].raw).stop && seen[i].at >= from
  }

  /** The run after a frame whose outcome is `o`. */
  ghost function Next(c: Config, y: Sys, raw: string, now: int, o: Outcome): Sys {
    var seen := y.seen + [Seen(raw, now)];
    var n := y.(s := o.state, projector := C.AppliedAll(y.projector, o.events), now := now, seen := seen);
    if o.events == [] || !IsRing(o.events[0]) then n
    else if o.events[0].RingCleared? then n.(rings := y.rings + o.events)
    else n.(rings := y.rings + o.events, startedAt := now,
            restarted := StopSince(c, seen, now - STOP_BURST_BEFORE_RING))
  }

  ghost function Step(c: Config, y: Sys, action: Action): Sys {
    match action
    case Frame(raw, pause) => Next(c, y, raw, y.now + pause, Map(c, y.s, raw, y.now + pause))
    case OtherEvent(e) => if IsRing(e) then y else y.(projector := C.Applied(y.projector, e))
  }

  ghost function Reach(c: Config, actions: seq<Action>): Sys {
    if actions == [] then START else Step(c, Reach(c, actions[..|actions| - 1]), actions[|actions| - 1])
  }

  ghost predicate InOrder(seen: seq<Seen>, now: int) {
    && (forall i | 0 <= i < |seen| :: seen[i].at <= now)
    && (forall i, j | 0 <= i < j < |seen| :: seen[i].at <= seen[j].at)
  }

  /** The pruned memory against the full history. */
  ghost predicate Remembers(recent: map<string, int>, seen: seq<Seen>, now: int) {
    && (forall raw <- recent :: LastSeen(seen, raw) == Some(recent[raw]))
    && (forall raw | LastSeen(seen, raw).Some? ::
          raw in recent || now - LastSeen(seen, raw).value > DUPLICATE_WINDOW)
  }

  ghost predicate MemoryInv(c: Config, y: Sys) {
    InOrder(y.seen, y.now) && y.s.lastStop == LastStop(c, y.seen) && Remembers(y.s.recent, y.seen, y.now)
  }

  lemma {:induction false} LastSeenIsLatest(c: Config, seen: seq<Seen>, raw: string, from: int)
    requires forall i, j | 0 <= i < j < |seen| :: seen[i].at <= seen[j].at
    ensures SeenSince(seen, raw, from) <==> LastSeen(seen, raw).Some? && LastSeen(seen, raw).value >= from
    ensures StopSince(c, seen, from) <==> LastStop(c, seen).Some? && LastStop(c, seen).value >= from
  {
    if seen != [] {
      var before, last := seen[..|seen| - 1], seen[|seen| - 1];
      assert seen == before + [last];
      LastSeenIsLatest(c, before, raw, from);
      assert SeenSince(seen, raw, from) <==> SeenSince(before, raw, from) || (last.raw == raw && last.at >= from);
      assert StopSince(c, seen, from) <==> StopSince(c, before, from) || (c.meaning(last.raw).stop && last.at >= from);
    }
  }

  /** Starts and clears alternate, each clear for the ring before it; `active` is the ring still on. */
  ghost predicate Alternating(rings: seq<C.Event>, active: string) {
    if rings == [] then active == ""
    else
      var last, before := rings[|rings| - 1], rings[..|rings| - 1];
      if active != "" then last == C.RingStarted(active) && Alternating(before, "")
      else last.RingCleared? && last.entrypoint != "" && Alternating(before, last.entrypoint)
  }

  /** The projector shows the mapper's ring or none, and a stop window belongs to the current ring. */
  ghost predicate RingInv(y: Sys) {
    && Alternating(y.rings, y.s.active)
    && ShowsRing(y.projector, y.s.active)
    && (y.s.active == "" ==> y.s.ignoreStopsUntil.Some? ==> y.s.ignoreStopsUntil.value <= y.now)
    && (y.s.active != "" ==>
          && y.startedAt <= y.now
          && (if y.restarted then y.s.ignoreStopsUntil == Some(y.startedAt + STALE_STOP_WINDOW)
              else y.s.ignoreStopsUntil.Some? ==> y.s.ignoreStopsUntil.value <= y.startedAt))
  }

  lemma MapUpdatesMemory(c: Config, s: State, raw: string, now: int)
    ensures Map(c, s, raw, now).state.recent == Pruned(s.recent, now)[raw := now]
    ensures Map(c, s, raw, now).state.lastStop == if c.meaning(raw).stop then Some(now) else s.lastStop
    ensures |Map(c, s, raw, now).events| <= 1
  {
  }

  lemma PruningRemembers(recent: map<string, int>, seen: seq<Seen>, before: int, raw: string, now: int)
    requires Remembers(recent, seen, before) && before <= now
    ensures Remembers(Pruned(recent, now)[raw := now], seen + [Seen(raw, now)], now)
  {
    assert (seen + [Seen(raw, now)])[..|seen|] == seen;
    forall f | LastSeen(seen + [Seen(raw, now)], f).Some?
      ensures f in Pruned(recent, now)[raw := now]
           || now - LastSeen(seen + [Seen(raw, now)], f).value > DUPLICATE_WINDOW
    {
      assert f != raw ==> LastSeen(seen + [Seen(raw, now)], f) == LastSeen(seen, f);
    }
  }

  lemma UpdateKeepsMemory(c: Config, y: Sys, n: Sys, raw: string)
    requires MemoryInv(c, y) && y.now <= n.now && n.seen == y.seen + [Seen(raw, n.now)]
    requires n.s.recent == Pruned(y.s.recent, n.now)[raw := n.now]
    requires n.s.lastStop == if c.meaning(raw).stop then Some(n.now) else y.s.lastStop
    ensures MemoryInv(c, n)
  {
    OneMoreSeen(c, y.seen, Seen(raw, n.now), y.now);
    PruningRemembers(y.s.recent, y.seen, y.now, raw, n.now);
  }

  lemma OneMoreSeen(c: Config, seen: seq<Seen>, last: Seen, before: int)
    requires InOrder(seen, before) && before <= last.at
    ensures InOrder(seen + [last], last.at)
    ensures LastStop(c, seen + [last]) == if c.meaning(last.raw).stop then Some(last.at) else LastStop(c, seen)
  {
    assert (seen + [last])[..|seen|] == seen;
  }

  lemma FrameKeepsMemory(c: Config, y: Sys, raw: string, now: int, o: Outcome, n: Sys)
    requires MemoryInv(c, y) && y.now <= now && o == Map(c, y.s, raw, now) && n == Next(c, y, raw, now, o)
    ensures MemoryInv(c, n)
  {
    MapUpdatesMemory(c, y.s, raw, now);
    UpdateKeepsMemory(c, y, n, raw);
  }

  lemma AlternatingGrows(rings: seq<C.Event>, active: string, id: string)
    requires Alternating(rings, active)
    ensures active == "" && id != "" ==> Alternating(rings + [C.RingStarted(id)], id)
    ensures active != "" ==> Alternating(rings + [C.RingCleared(active)], "")
  {
    assert (rings + [C.RingStarted(id)])[..|rings|] == rings;
    assert (rings + [C.RingCleared(active)])[..|rings|] == rings;
  }

  /** How an outcome may move the ring. */
  ghost predicate RingMoves(s: State, now: int, o: Outcome) {
    if o.events == [] || !IsRing(o.events[0])
    then o.state.active == s.active && o.state.ignoreStopsUntil == s.ignoreStopsUntil
    else if o.events[0].RingCleared?
    then o.events == [C.RingCleared(s.active)] && s.active != "" && o.state.active == "" && !IgnoresStop(s, now)
         && o.state.ignoreStopsUntil == s.ignoreStopsUntil
    else o.events == [C.RingStarted(o.state.active)] && s.active == "" && o.state.active != ""
         && o.state.ignoreStopsUntil ==
            if Restarts(o.state, now) then Some(now + STALE_STOP_WINDOW) else s.ignoreStopsUntil
  }

  ghost predicate ShowsRing(p: C.State, active: string) {
    p.physicalRing.Some? ==> active != "" && p.physicalRing.value == active
  }

  lemma MapMovesRing(c: Config, s: State, raw: string, now: int, o: Outcome)
    requires o == Map(c, s, raw, now)
    ensures RingMoves(s, now, o) && |o.events| <= 1
  {
  }

  /** The projector takes what a frame says of the ring, and follows it. */
  lemma MapRings(c: Config, s: State, raw: string, now: int, p: C.State, o: Outcome)
    requires ShowsRing(p, s.active) && o == Map(c, s, raw, now)
    ensures ShowsRing(C.AppliedAll(p, o.events), o.state.active)
    ensures o.events != [] ==> C.After(p, o.events[0]).Ok?
  {
    MapMovesRing(c, s, raw, now, o);
    var events := o.events;
    if events != [] {
      assert events == [events[0]] && events[1..] == [];
      assert C.AppliedAll(p, events) == C.AppliedAll(C.Applied(p, events[0]), []);
    }
  }

  lemma StartKeepsRing(y: Sys, n: Sys)
    requires RingInv(y) && y.now <= n.now && y.s.active == "" && n.s.active != ""
    requires n.projector.physicalRing.Some? ==> n.projector.physicalRing.value == n.s.active
    requires n.rings == y.rings + [C.RingStarted(n.s.active)] && n.startedAt == n.now
    requires n.restarted == Restarts(n.s, n.now)
    requires n.s.ignoreStopsUntil == if n.restarted then Some(n.now + STALE_STOP_WINDOW) else y.s.ignoreStopsUntil
    ensures RingInv(n)
  {
    AlternatingGrows(y.rings, y.s.active, n.s.active);
  }

  lemma ClearKeepsRing(y: Sys, n: Sys)
    requires RingInv(y) && y.now <= n.now && y.s.active != "" && n.s.active == ""
    requires n.projector.physicalRing.None? && n.rings == y.rings + [C.RingCleared(y.s.active)]
    requires !IgnoresStop(y.s, n.now) && n.s.ignoreStopsUntil == y.s.ignoreStopsUntil
    ensures RingInv(n)
  {
    AlternatingGrows(y.rings, y.s.active, n.s.active);
  }

  lemma OutcomeKeepsRing(c: Config, y: Sys, raw: string, now: int, o: Outcome)
    requires RingInv(y) && y.now <= now && RingMoves(y.s, now, o)
    requires MemoryInv(c, Next(c, y, raw, now, o))
    requires ShowsRing(C.AppliedAll(y.projector, o.events), o.state.active)
    ensures RingInv(Next(c, y, raw, now, o))
  {
    var n := Next(c, y, raw, now, o);
    LastSeenIsLatest(c, n.seen, raw, now - STOP_BURST_BEFORE_RING);
    if o.events != [] && o.events[0].RingStarted? {
      StartKeepsRing(y, n);
    } else if o.events != [] && o.events[0].RingCleared? {
      ClearKeepsRing(y, n);
    }
  }

  lemma FrameKeepsRing(c: Config, y: Sys, raw: string, now: int, o: Outcome, n: Sys)
    requires RingInv(y) && y.now <= now && o == Map(c, y.s, raw, now)
    requires n == Next(c, y, raw, now, o) && MemoryInv(c, n)
    ensures RingInv(n)
  {
    MapMovesRing(c, y.s, raw, now, o);
    MapRings(c, y.s, raw, now, y.projector, o);
    OutcomeKeepsRing(c, y, raw, now, o);
  }

  lemma OtherEventKeepsInv(c: Config, y: Sys, e: C.Event)
    requires MemoryInv(c, y) && RingInv(y)
    ensures MemoryInv(c, Step(c, y, OtherEvent(e))) && RingInv(Step(c, y, OtherEvent(e)))
  {
  }

  lemma FrameKeepsInv(c: Config, y: Sys, raw: string, now: int, o: Outcome, n: Sys)
    requires MemoryInv(c, y) && RingInv(y) && y.now <= now
    requires o == Map(c, y.s, raw, now) && n == Next(c, y, raw, now, o)
    ensures MemoryInv(c, n) && RingInv(n)
  {
    FrameKeepsMemory(c, y, raw, now, o, n);
    FrameKeepsRing(c, y, raw, now, o, n);
  }

  lemma {:induction false} ReachInv(c: Config, actions: seq<Action>)
    ensures MemoryInv(c, Reach(c, actions)) && RingInv(Reach(c, actions))
  {
    if actions != [] {
      var y, action := Reach(c, actions[..|actions| - 1]), actions[|actions| - 1];
      ReachInv(c, actions[..|actions| - 1]);
      if action.Frame? {
        var now := y.now + action.pause;
        FrameKeepsInv(c, y, action.raw, now, Map(c, y.s, action.raw, now), Reach(c, actions));
      } else {
        OtherEventKeepsInv(c, y, action.event);
      }
    }
  }

  /** The pruned memory answers exactly whether this frame was seen within the last 300 ms. */
  lemma {:induction false} DuplicateIsRecent(c: Config, actions: seq<Action>, raw: string, pause: nat)
    ensures
      var y := Reach(c, actions);
      var now := y.now + pause;
      IsDuplicate(y.s.recent, raw, now) <==> SeenSince(y.seen, raw, now - DUPLICATE_WINDOW)
  {
    ReachRemembers(c, actions, raw, Reach(c, actions).now + pause);
  }

  lemma ReachRemembers(c: Config, actions: seq<Action>, raw: string, now: int)
    requires Reach(c, actions).now <= now
    ensures
      var y := Reach(c, actions);
      IsDuplicate(y.s.recent, raw, now) <==> SeenSince(y.seen, raw, now - DUPLICATE_WINDOW)
  {
    ReachInv(c, actions);
    MemoryAnswers(c, Reach(c, actions), raw, now);
  }

  lemma MemoryAnswers(c: Config, y: Sys, raw: string, now: int)
    requires MemoryInv(c, y) && y.now <= now
    ensures IsDuplicate(y.s.recent, raw, now) <==> SeenSince(y.seen, raw, now - DUPLICATE_WINDOW)
  {
    LastSeenIsLatest(c, y.seen, raw, now - DUPLICATE_WINDOW);
  }

  /** Ring events alternate, each clear names the ring it ends, and the projector never rejects an
      event of the mapper, whatever call, preview and audio events come in between. */
  lemma {:induction false} RingsAlternateAndApply(c: Config, actions: seq<Action>, raw: string, pause: nat)
    ensures
      var y := Reach(c, actions);
      && Alternating(y.rings, y.s.active)
      && forall e <- Map(c, y.s, raw, y.now + pause).events :: C.After(y.projector, e).Ok?
  {
    ReachInv(c, actions);
    EventsApply(c, Reach(c, actions), raw, Reach(c, actions).now + pause);
  }

  lemma EventsApply(c: Config, y: Sys, raw: string, now: int)
    requires ShowsRing(y.projector, y.s.active)
    ensures forall e <- Map(c, y.s, raw, now).events :: C.After(y.projector, e).Ok?
  {
    var o := Map(c, y.s, raw, now);
    MapRings(c, y.s, raw, now, y.projector, o);
    MapMovesRing(c, y.s, raw, now, o);
  }

  predicate OnlyStop(m: Meaning) {
    m.stop && !m.ringStart && !m.muted && !m.unmuted && m.voicemail.None?
  }

  /** The ring ends, unless it began within a second of a stop frame and less than 1.5 s ago. */
  ghost predicate EndsUnlessStale(y: Sys, now: int, o: Outcome) {
    if y.restarted && now < y.startedAt + STALE_STOP_WINDOW then o.events == [] && o.state.active == y.s.active
    else o.events == [C.RingCleared(y.s.active)] && o.state.active == ""
  }

  lemma StopReacts(c: Config, y: Sys, raw: string, now: int)
    requires RingInv(y) && y.now <= now && y.s.active != "" && !IsDuplicate(y.s.recent, raw, now)
    requires OnlyStop(c.meaning(raw))
    ensures EndsUnlessStale(y, now, Map(c, y.s, raw, now))
  {
  }

  /** A stop frame that is no duplicate ends the current ring exactly unless that ring began within a
      second of a stop frame, and less than 1.5 s ago: the window holds off the tail of the earlier
      ring's stops, and never reaches a later ring. */
  lemma {:induction false} StopEndsRing(c: Config, actions: seq<Action>, raw: string, pause: nat)
    requires OnlyStop(c.meaning(raw)) && Reach(c, actions).s.active != ""
    requires !SeenSince(Reach(c, actions).seen, raw, Reach(c, actions).now + pause - DUPLICATE_WINDOW)
    ensures
      var y := Reach(c, actions);
      EndsUnlessStale(y, y.now + pause, Map(c, y.s, raw, y.now + pause))
  {
    ReachInv(c, actions);
    DuplicateIsRecent(c, actions, raw, pause);
    StopReacts(c, Reach(c, actions), raw, Reach(c, actions).now + pause);
  }

  // ----- What a fresh frame says -----

  /** The entrypoint of a ring frame: the doorbell's if one is configured, else that of the frame's
      address, else that of the address of a view request, else the only one there is, else none. */
  ghost predicate BelongsTo(c: Config, raw: string, id: string) {
    var m := c.meaning(raw);
    if c.doorbell != "" then id == c.doorbell
    else if m.address in c.entrypoints && c.entrypoints[m.address] != "" then id == c.entrypoints[m.address]
    else if m.viewAddress in c.entrypoints && c.entrypoints[m.viewAddress] != "" then id == c.entrypoints[m.viewAddress]
    else if |c.entrypoints| == 1 then exists address :: c.entrypoints == map[address := id]
    else id == ""
  }

  lemma ResolvedBelongs(c: Config, raw: string)
    ensures BelongsTo(c, raw, Resolve(c, raw))
    ensures forall id :: BelongsTo(c, raw, id) ==> id == Resolve(c, raw)
  {
    if |c.entrypoints| == 1 {
      SoleKey(c.entrypoints.Keys);
      var address :| c.entrypoints.Keys == {address};
      assert c.entrypoints == map[address := c.entrypoints[address]];
      assert address in c.entrypoints;
      forall other, id | c.entrypoints == map[other := id]
        ensures id == c.entrypoints[address]
      {
        assert other in c.entrypoints.Keys;
      }
    }
  }

  /** The frames of a run, with the times they came at. */
  function History(actions: seq<Action>): seq<Seen> {
    if actions == [] then []
    else
      var last := actions[|actions| - 1];
      History(actions[..|actions| - 1]) + (if last.Frame? then [Seen(last.raw, Clock(actions))] else [])
  }

  /** A frame not seen for 300 ms, in any run. */
  ghost predicate Fresh(actions: seq<Action>, raw: string, pause: nat) {
    !SeenSince(History(actions), raw, Clock(actions) + pause - 300)
  }

  function Emitted(c: Config, actions: seq<Action>, raw: string, pause: nat): seq<C.Event> {
    Map(c, Mapping(c, actions), raw, Clock(actions) + pause).events
  }

  /** The mapper and its clock over a run, without the rest of the system. */
  function Mapping(c: Config, actions: seq<Action>): State {
    if actions == [] then INITIAL
    else Mapped(c, Mapping(c, actions[..|actions| - 1]), Clock(actions[..|actions| - 1]), actions[|actions| - 1])
  }

  function Mapped(c: Config, s: State, clock: int, action: Action): State {
    if action.Frame? then Map(c, s, action.raw, clock + action.pause).state else s
  }

  function Clock(actions: seq<Action>): nat {
    if actions == [] then 0
    else Clock(actions[..|actions| - 1]) + (if actions[|actions| - 1].Frame? then actions[|actions| - 1].pause else 0)
  }

  lemma {:induction false} MappingIsReach(c: Config, actions: seq<Action>)
    ensures Reach(c, actions).s == Mapping(c, actions) && Reach(c, actions).now == Clock(actions)
    ensures Reach(c, actions).seen == History(actions)
  {
    if actions != [] {
      MappingIsReach(c, actions[..|actions| - 1]);
      StepMaps(c, Reach(c, actions[..|actions| - 1]), actions[|actions| - 1]);
    }
  }

  lemma StepMaps(c: Config, y: Sys, action: Action)
    ensures
      var n := Step(c, y, action);
      && n.s == Mapped(c, y.s, y.now, action)
      && n.now == y.now + (if action.Frame? then action.pause else 0)
      && n.seen == y.seen + (if action.Frame? then [Seen(action.raw, n.now)] else [])
  {
    if action.Frame? {
      var now := y.now + action.pause;
      NextMaps(c, y, action.raw, now, Map(c, y.s, action.raw, now));
    }
  }

  lemma NextMaps(c: Config, y: Sys, raw: string, now: int, o: Outcome)
    ensures Next(c, y, raw, now, o).s == o.state && Next(c, y, raw, now, o).now == now
    ensures Next(c, y, raw, now, o).seen == y.seen + [Seen(raw, now)]
  {
  }

  /** A fresh ring start with no ring on rings exactly once, for the entrypoint it belongs to, and makes
      that the ring that is on; with a ring on, or no entrypoint to ring for, it gives nothing. */
  lemma {:induction false} RingStartRings(c: Config, actions: seq<Action>, raw: string, pause: nat, id: string)
    requires Fresh(actions, raw, pause) && c.meaning(raw).ringStart && BelongsTo(c, raw, id)
    ensures
      var active := Mapping(c, actions).active;
      if active == "" && id != "" then
        && Emitted(c, actions, raw, pause) == [C.RingStarted(id)]
        && Mapping(c, actions + [Frame(raw, pause)]).active == id
      else
        && Emitted(c, actions, raw, pause) == []
        && Mapping(c, actions + [Frame(raw, pause)]).active == active
  {
    FreshIsNoDuplicate(c, actions, raw, pause);
    ResolvedBelongs(c, raw);
    assert (actions + [Frame(raw, pause)])[..|actions|] == actions;
  }

  lemma FreshIsNoDuplicate(c: Config, actions: seq<Action>, raw: string, pause: nat)
    ensures Fresh(actions, raw, pause) <==> !IsDuplicate(Mapping(c, actions).recent, raw, Clock(actions) + pause)
  {
    DuplicateIsRecent(c, actions, raw, pause);
    MappingIsReach(c, actions);
  }

  /** A fresh mute, unmute or voicemail frame gives exactly its own event, ring on or not. */
  lemma {:induction false} SwitchFramesSwitch(c: Config, actions: seq<Action>, raw: string, pause: nat)
    requires Fresh(actions, raw, pause) && !c.meaning(raw).ringStart
    ensures
      var m := c.meaning(raw);
      var events := Emitted(c, actions, raw, pause);
      && (m.muted ==> events == [C.AudioMuted])
      && (!m.muted && m.unmuted ==> events == [C.AudioUnmuted])
      && (!m.muted && !m.unmuted && m.voicemail == Some(true) ==> events == [C.VoicemailEnabled])
      && (!m.muted && !m.unmuted && m.voicemail == Some(false) ==> events == [C.VoicemailDisabled])
      && (!m.muted && !m.unmuted && m.voicemail.None? && !m.stop ==> events == [])
      && (m.muted || m.unmuted || m.voicemail.Some? || !m.stop ==>
            Mapping(c, actions + [Frame(raw, pause)]).active == Mapping(c, actions).active)
  {
    FreshIsNoDuplicate(c, actions, raw, pause);
    assert (actions + [Frame(raw, pause)])[..|actions|] == actions;
  }

  /** A frame seen within 300 ms gives nothing and moves no ring. */
  lemma {:induction false} RepeatedFrameIsSilent(c: Config, actions: seq<Action>, raw: string, pause: nat)
    requires !Fresh(actions, raw, pause)
    ensures Emitted(c, actions, raw, pause) == []
    ensures Mapping(c, actions + [Frame(raw, pause)]).active == Mapping(c, actions).active
  {
    FreshIsNoDuplicate(c, actions, raw, pause);
    assert (actions + [Frame(raw, pause)])[..|actions|] == actions;
  }
}
