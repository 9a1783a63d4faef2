/** The firmware reload that follows an unmute (internal/ringersync/sync.go).

    The mutex guards `pending` and `due`; `wake` is a channel of capacity one.  Timers and the
    busy probe are answers the environment gives: a tick may come at any time, and `now` and `busy`
    are whatever the step is told. */
module RingerSync {
  /** `pending` and `due` under the mutex, and whether the wake channel holds its one token. */
  datatype State = State(pending: bool, due: int, token: bool)

  const IDLE := State(false, 0, false)

  function Unpend(s: State): State {
    s.(pending := false)
  }

  function Mark(s: State, due: int): State {
    s.(pending := true, due := due)
  }

  function Wake(s: State): State {
    s.(token := true)
  }

  function Take(s: State): State {
    s.(token := false)
  }

  class Sync {
    const delay: nat
    var pending: bool
    var due: int
    var token: bool

    ghost function View(): State
      reads this
    {
      State(pending, due, token)
    }

    constructor (delay: nat)
      ensures View() == IDLE && this.delay == delay
    {
      this.delay := delay;
      pending, due, token := false, 0, false;
    }

    /** The end of Mute, and the section of the wait before a reload. */
    method ClearPending()
      modifies this`pending
      ensures View() == Unpend(old(View()))
    {
      pending := false;
    }

    /** The end of Unmute: marks the reload of a ringer that was muted. */
    method MarkPending(wasMuted: bool, now: int) returns (wakes: bool)
      modifies this`pending, this`due
      ensures wakes == wasMuted
      ensures View() == if wasMuted then Mark(old(View()), now + delay) else old(View())
    {
      if !wasMuted { return false; }
      pending := true;
      due := now + delay;
      wakes := true;
    }

    /** A send that never blocks: a token already there is enough. */
    method SendWake()
      modifies this`token
      ensures View() == Wake(old(View()))
    {
      if !token {
        token := true;
      }
    }

    /** A receive, when there is something to receive. */
    method ReceiveWake() returns (received: bool)
      modifies this`token
      ensures received == old(token) && View() == Take(old(View()))
    {
      received := token;
      token := false;
    }
  }

  // ----- All interleavings -----

  /** Where the one goroutine of Run is. */
  datatype Runner =
    | Selecting                           // Run's select
    | Waiting                             // the select of waitUntilDue
    | Reading                             // about to read pending and due
    | Deciding(pending: bool, due: int)   // has read them
    | Asking                              // due: about to ask whether the intercom is busy
    | Clearing                            // idle: about to clear pending
    | Reloading
    | Stopped

  /** `waking` counts the Unmute calls between their mark and their wake, `marks` those that marked so
      far, `cancels` the Mutes, and `reloads` the reloads begun. */
  datatype Sys = Sys(s: State, runner: Runner, waking: nat, marks: nat, cancels: nat, reloads: nat)

  const START := Sys(IDLE, Selecting, 0, 0, 0, 0)

  datatype Action =
    | MuteEnds
    | UnmuteMarks(due: int)
    | UnmuteWakes
    | TakeToken
    | Tick
    | Advance(now: int, busy: bool)
    | ContextEnds

  function Step(y: Sys, action: Action): Sys {
    match action
    case MuteEnds => y.(s := Unpend(y.s), cancels := y.cancels + 1)
    case UnmuteMarks(due) => y.(s := Mark(y.s, due), waking := y.waking + 1, marks := y.marks + 1)
    case UnmuteWakes => if y.waking > 0 then y.(s := Wake(y.s), waking := y.waking - 1) else y
    case TakeToken =>
      if !y.s.token then y
      else if y.runner.Selecting? then y.(s := Take(y.s), runner := Waiting)
      else if y.runner.Waiting? then y.(s := Take(y.s), runner := Reading)
      else y
    case Tick => if y.runner.Waiting? then y.(runner := Reading) else y
    case Advance(now, busy) =>
      (match y.runner
       case Reading => y.(runner := Deciding(y.s.pending, y.s.due))
       case Deciding(pending, due) =>
         y.(runner := if !pending then Selecting else if now < due then Waiting else Asking)
       case Asking => y.(runner := if busy then Waiting else Clearing)
       case Clearing => y.(s := Unpend(y.s), runner := Reloading, reloads := y.reloads + 1)
       case Reloading => y.(runner := Selecting)
       case _ => y)
    case ContextEnds =>
      if y.runner.Selecting? || y.runner.Waiting? then y.(runner := Stopped) else y
  }

  function RunFrom(y: Sys, actions: seq<Action>): Sys {
    if actions == [] then y else Step(RunFrom(y, actions[..|actions| - 1]), actions[|actions| - 1])
  }

  /** The runner is on its way to look at `pending`, or has seen it set. */
  predicate Attentive(r: Runner) {
    r.Waiting? || r.Reading? || (r.Deciding? && r.pending) || r.Asking? || r.Clearing?
  }

  /** A pending reload is never forgotten. */
  ghost predicate Watched(y: Sys) {
    y.s.pending ==> y.s.token || y.waking > 0 || Attentive(y.runner) || y.runner.Stopped?
  }

  lemma {:induction false} RunKeepsWatched(y: Sys, actions: seq<Action>)
    requires Watched(y)
    ensures Watched(RunFrom(y, actions))
  {
    if actions != [] {
      RunKeepsWatched(y, actions[..|actions| - 1]);
    }
  }

  /** In every run a pending reload has a token buffered for it, or a runner that will look, or an
      Unmute about to wake one, unless the program is stopping. */
  lemma {:induction false} WakeUpIsNeverLost(actions: seq<Action>)
    ensures Watched(RunFrom(START, actions))
  {
    RunKeepsWatched(START, actions);
  }

  lemma {:induction false} CountersGrow(y: Sys, actions: seq<Action>)
    ensures var n := RunFrom(y, actions);
            y.marks <= n.marks && y.cancels <= n.cancels && y.reloads <= n.reloads
  {
    if actions != [] {
      CountersGrow(y, actions[..|actions| - 1]);
    }
  }

  /** A marked unmute stays pending until a Mute cancels it or a reload begins after it. */
  lemma {:induction false} MarkIsHonoured(y: Sys, actions: seq<Action>)
    requires y.s.pending
    ensures var n := RunFrom(y, actions); n.s.pending || n.cancels > y.cancels || n.reloads > y.reloads
  {
    if actions != [] {
      var before := actions[..|actions| - 1];
      MarkIsHonoured(y, before);
      CountersGrow(y, before);
    }
  }

  /** What the system does by itself: pending wakes, ticks, and a runner that finds the time come and
      the intercom idle. */
  predicate Internal(a: Action, now: int) {
    a == UnmuteWakes || a == TakeToken || a == Tick || a == Advance(now, false)
  }

  /** How far the runner is from beginning a reload. */
  function Distance(y: Sys): nat {
    match y.runner
    case Clearing => 1
    case Asking => 2
    case Deciding(pending, _) => if pending then 3 else 8
    case Reading => 4
    case Waiting => 5
    case Selecting => 7
    case Reloading => 8
    case Stopped => 9
  }

  /** A reload is pending and nothing outside holds it up. */
  ghost predicate Ripe(y: Sys, now: int) {
    && Watched(y) && y.s.pending && !y.runner.Stopped?
    && now >= y.s.due && (y.runner.Deciding? && y.runner.pending ==> now >= y.runner.due)
  }

  /** The system can always go on by itself. */
  lemma SomethingIsEnabled(y: Sys, now: int) returns (a: Action)
    requires Ripe(y, now)
    ensures Internal(a, now) && Step(y, a) != y
  {
    a := if y.runner.Waiting? then Tick
         else if y.runner.Selecting? then (if y.s.token then TakeToken else UnmuteWakes)
         else Advance(now, false);
  }

  /** And whatever it does by itself begins the reload or comes closer to it. */
  lemma EveryStepHelps(y: Sys, a: Action, now: int)
    requires Ripe(y, now) && Internal(a, now) && Step(y, a) != y
    ensures
      var n := Step(y, a);
      if y.runner.Clearing? && a.Advance? then n.reloads == y.reloads + 1 && n.runner == Reloading
      else Ripe(n, now) && n.reloads == y.reloads && Distance(n) + n.waking < Distance(y) + y.waking
  {
  }

  /** The actions are the system's own, and each of them does something. */
  ghost predicate OwnSteps(y: Sys, actions: seq<Action>, now: int) {
    actions == [] ||
    var before := actions[..|actions| - 1];
    && OwnSteps(y, before, now) && Internal(actions[|actions| - 1], now)
    && Step(RunFrom(y, before), actions[|actions| - 1]) != RunFrom(y, before)
  }

  /** Left to itself the system begins the pending reload, whatever its goroutines do first: every
      schedule of its own steps reaches a reload within a number of them known beforehand. */
  lemma {:induction false} PendingReloadBegins(y: Sys, actions: seq<Action>, now: int)
    requires Ripe(y, now) && OwnSteps(y, actions, now)
    ensures
      var n := RunFrom(y, actions);
      || n.reloads > y.reloads
      || (Ripe(n, now) && n.reloads == y.reloads && Distance(n) + n.waking + |actions| <= Distance(y) + y.waking)
    ensures |actions| >= Distance(y) + y.waking ==> RunFrom(y, actions).reloads > y.reloads
  {
    if actions != [] {
      var before, last := actions[..|actions| - 1], actions[|actions| - 1];
      PendingReloadBegins(y, before, now);
      if RunFrom(y, before).reloads == y.reloads {
        EveryStepHelps(RunFrom(y, before), last, now);
      }
      CountersGrow(RunFrom(y, before), [last]);
    }
  }

  // ----- When a reload may begin -----

  /** The state before action `n` of a run. */
  function At(actions: seq<Action>, n: nat): Sys
    requires n <= |actions|
  {
    RunFrom(START, actions[..n])
  }

  lemma AtNext(actions: seq<Action>, n: nat)
    requires n < |actions|
    ensures At(actions, n + 1) == Step(At(actions, n), actions[n])
  {
    assert actions[..n + 1][..n] == actions[..n];
  }

  /** The runner stands where it stood, from one action to another. */
  ghost predicate Stands(actions: seq<Action>, from: nat, to: nat, runner: Runner)
    requires to <= |actions|
  {
    forall i | from < i <= to :: At(actions, i).runner == runner
  }

  /** Before it decides, the runner looked at `pending` and `due`. */
  lemma {:induction false} WhyDeciding(actions: seq<Action>, n: nat) returns (look: nat)
    requires n <= |actions| && At(actions, n).runner.Deciding?
    ensures look < n && actions[look].Advance? && At(actions, look).runner == Reading
    ensures At(actions, n).runner == Deciding(At(actions, look).s.pending, At(actions, look).s.due)
    ensures Stands(actions, look, n, At(actions, n).runner)
  {
    AtNext(actions, n - 1);
    if At(actions, n - 1).runner == At(actions, n).runner {
      look := WhyDeciding(actions, n - 1);
    } else {
      look := n - 1;
    }
  }

  /** Before it asks, it saw a reload pending and the clock at or past the due time. */
  lemma {:induction false} WhyAsking(actions: seq<Action>, n: nat) returns (look: nat, clock: nat)
    requires n <= |actions| && At(actions, n).runner == Asking
    ensures look < clock < n && At(actions, look).runner == Reading && At(actions, look).s.pending
    ensures actions[clock].Advance? && actions[clock].now >= At(actions, look).s.due
    ensures Stands(actions, look, clock, Deciding(true, At(actions, look).s.due)) && Stands(actions, clock, n, Asking)
  {
    AtNext(actions, n - 1);
    if At(actions, n - 1).runner == Asking {
      look, clock := WhyAsking(actions, n - 1);
    } else {
      clock := n - 1;
      look := WhyDeciding(actions, n - 1);
    }
  }

  /** Before it clears `pending`, it was told that the intercom is not busy. */
  lemma {:induction false} WhyClearing(actions: seq<Action>, n: nat) returns (look: nat, clock: nat, answer: nat)
    requires n <= |actions| && At(actions, n).runner == Clearing
    ensures look < clock < answer < n && At(actions, look).runner == Reading && At(actions, look).s.pending
    ensures actions[clock].Advance? && actions[clock].now >= At(actions, look).s.due
    ensures actions[answer].Advance? && !actions[answer].busy
    ensures Stands(actions, look, clock, Deciding(true, At(actions, look).s.due))
    ensures Stands(actions, clock, answer, Asking) && Stands(actions, answer, n, Clearing)
  {
    AtNext(actions, n - 1);
    if At(actions, n - 1).runner == Clearing {
      look, clock, answer := WhyClearing(actions, n - 1);
    } else {
      answer := n - 1;
      look, clock := WhyAsking(actions, n - 1);
    }
  }

  /** A reload never begins unasked for, early or during a call: whenever one begins, the runner's latest
      look found it pending, its latest reading of the clock was at or past the due time it had read, and
      the latest answer it got was that the intercom is not busy, in that order. */
  lemma {:induction false} ReloadIsWarranted(actions: seq<Action>, k: nat) returns (look: nat, clock: nat, answer: nat)
    requires k < |actions| && At(actions, k + 1).reloads > At(actions, k).reloads
    ensures look < clock < answer < k && At(actions, look).runner == Reading && At(actions, look).s.pending
    ensures actions[clock].Advance? && actions[clock].now >= At(actions, look).s.due
    ensures actions[answer].Advance? && !actions[answer].busy
    ensures Stands(actions, look, clock, Deciding(true, At(actions, look).s.due))
    ensures Stands(actions, clock, answer, Asking) && Stands(actions, answer, k, Clearing)
    ensures !At(actions, k + 1).s.pending && At(actions, k + 1).runner == Reloading
  {
    AtNext(actions, k);
    look, clock, answer := WhyClearing(actions, k);
  }

  /** While the intercom is busy, the clock short of the due time or nothing pending, the runner goes back
      to wait. */
  lemma HeldUpRunnerWaits(y: Sys, now: int)
    ensures y.runner == Asking ==> Step(y, Advance(now, true)) == y.(runner := Waiting)
    ensures y.runner.Deciding? && y.runner.pending && now < y.runner.due ==>
              forall busy :: Step(y, Advance(now, busy)) == y.(runner := Waiting)
    ensures y.runner.Deciding? && !y.runner.pending ==>
              forall busy :: Step(y, Advance(now, busy)) == y.(runner := Selecting)
  {
  }

  /** An unmute of a muted ringer sets the reload due one delay later, whatever was due before; a mute
      takes it back; and neither touches anything else. */
  lemma CommandsSetPending(s: State, due: int)
    ensures Mark(s, due).pending && Mark(s, due).due == due && Mark(s, due).token == s.token
    ensures !Unpend(s).pending && Unpend(s).token == s.token
    ensures Wake(s).token && Wake(s).pending == s.pending && Wake(s).due == s.due
    ensures !Take(s).token && Take(s).pending == s.pending && Take(s).due == s.due
  {
  }
}
