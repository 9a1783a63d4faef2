/** The ring holder's hold on the stream (internal/app/ringholder.go).

    An acquire runs on its own goroutine and may end after its ring did; the generation tells.  The
    transition system interleaves rings, ends of rings and every goroutine they start. */
module RingHolder {
  import opened Prelude

  /** The stream lease and the recording that goes with it. */
  datatype Hold = Hold(lease: nat, clip: nat)

  datatype State = State(generation: nat, held: Option<Hold>)

  /** A ring or its end: whatever was held is handed back, and every acquire in flight is late. */
  function NextGeneration(s: State): State {
    State(s.generation + 1, None)
  }

  function Keep(s: State, generation: nat, hold: Hold): State {
    if s.generation == generation then s.(held := Some(hold)) else s
  }

  class Holder {
    var generation: nat
    var lease: Option<nat>
    var clip: Option<nat>

    ghost predicate Valid()
      reads this
    {
      lease.Some? <==> clip.Some?
    }

    ghost function View(): State
      requires Valid()
      reads this
    {
      State(generation, if lease.Some? then Some(Hold(lease.value, clip.value)) else None)
    }

    constructor ()
      ensures Valid() && View() == State(0, None)
    {
      generation, lease, clip := 0, None, None;
    }

    /** The locked section of `hold` and of `release`. */
    method Swap() returns (current: nat, previous: Option<Hold>)
      requires Valid()
      modifies this
      ensures Valid() && View() == NextGeneration(old(View()))
      ensures current == generation && previous == old(View()).held
    {
      generation := generation + 1;
      current := generation;
      previous := None;
      if lease.Some? {
        previous := Some(Hold(lease.value, clip.value));
      }
      lease, clip := None, None;
    }

    /** The locked section of `acquire`; a late one keeps its hold to itself. */
    method Finish(acquired: nat, hold: Hold) returns (current: bool)
      requires Valid()
      modifies this
      ensures Valid() && View() == Keep(old(View()), acquired, hold)
      ensures current <==> old(generation) == acquired
    {
      current := generation == acquired;
      if current {
        lease, clip := Some(hold.lease), Some(hold.clip);
      }
    }
  }

  // ----- All interleavings -----

  datatype Pc =
    | Acquiring(generation: nat, clip: nat)
    | Acquired(generation: nat, hold: Hold)
    | Closing(hold: Hold)      // about to close the clip
    | Leaving(lease: nat)      // about to leave the stream
    | Failed(clip: nat)        // the acquire failed, about to close the clip

  /** Where a lease is: in the holder, with one goroutine, or given back to the coordinator. */
  datatype Place = Held | With(thread: nat) | Left

  datatype Sys = Sys(
    s: State,
    threads: map<nat, Pc>,
    nextThread: nat,
    nextLease: nat,
    place: map<nat, Place>,
    leaves: seq<nat>,
    openClips: set<nat>)

  const START := Sys(State(0, None), map[], 0, 0, map[], [], {})

  datatype Action =
    | Ring(canStream: bool)
    | RingEnds
    | Run(thread: nat, ok: bool)

  function Spawn(y: Sys, pc: Pc): Sys {
    y.(threads := y.threads[y.nextThread := pc], nextThread := y.nextThread + 1)
  }

  /** Takes what is held away from the holder, to be closed and left by a goroutine. */
  function Swapped(y: Sys): Sys {
    var n := y.(s := NextGeneration(y.s));
    if y.s.held.None? then n
    else Spawn(n.(place := y.place[y.s.held.value.lease := With(y.nextThread)]), Closing(y.s.held.value))
  }

  function StepThread(y: Sys, t: nat, ok: bool): Sys
    requires t in y.threads
  {
    match y.threads[t]
    case Acquiring(generation, clip) =>
      if ok then
        y.(nextLease := y.nextLease + 1, place := y.place[y.nextLease := With(t)],
           threads := y.threads[t := Acquired(generation, Hold(y.nextLease, clip))])
      else y.(threads := y.threads[t := Failed(clip)])
    case Acquired(generation, hold) =>
      if y.s.generation == generation then
        y.(s := Keep(y.s, generation, hold), place := y.place[hold.lease := Held], threads := y.threads - {t})
      else y.(threads := y.threads[t := Closing(hold)])
    case Closing(hold) =>
      y.(openClips := y.openClips - {hold.clip}, threads := y.threads[t := Leaving(hold.lease)])
    case Leaving(lease) =>
      y.(leaves := y.leaves + [lease], place := y.place[lease := Left], threads := y.threads - {t})
    case Failed(clip) =>
      y.(openClips := y.openClips - {clip}, threads := y.threads - {t})
  }

  /** The clip of an acquire is named after its goroutine. */
  function Step(y: Sys, action: Action): Sys {
    match action
    case Ring(canStream) =>
      var n := Swapped(y);
      if canStream
      then Spawn(n.(openClips := n.openClips + {n.nextThread}), Acquiring(n.s.generation, n.nextThread))
      else n
    case RingEnds => Swapped(y)
    case Run(t, ok) => if t in y.threads then StepThread(y, t, ok) else y
  }

  function Reach(actions: seq<Action>): Sys {
    if actions == [] then START else Step(Reach(actions[..|actions| - 1]), actions[|actions| - 1])
  }

  ghost predicate Carries(pc: Pc, lease: nat) {
    match pc
    case Acquired(_, hold) => hold.lease == lease
    case Closing(hold) => hold.lease == lease
    case Leaving(l) => l == lease
    case _ => false
  }

  ghost predicate Records(pc: Pc, clip: nat) {
    match pc
    case Acquiring(_, c) => c == clip
    case Acquired(_, hold) => hold.clip == clip
    case Closing(hold) => hold.clip == clip
    case Failed(c) => c == clip
    case Leaving(_) => false
  }

  /** Every lease acquired so far is in exactly one place, and left at most once. */
  ghost predicate LeaseInv(y: Sys) {
    && (forall l :: l in y.place <==> 0 <= l < y.nextLease)
    && (forall l <- y.place :: y.place[l] == Held <==> y.s.held.Some? && y.s.held.value.lease == l)
    && (y.s.held.Some? ==> y.s.held.value.lease in y.place)
    && (forall t <- y.threads, l | Carries(y.threads[t], l) :: l in y.place && y.place[l] == With(t))
    && (forall l <- y.place | y.place[l].With? :: y.place[l].thread in y.threads && Carries(y.threads[y.place[l].thread], l))
    && (forall l :: l in y.leaves <==> l in y.place && y.place[l] == Left)
    && (forall i, j | 0 <= i < j < |y.leaves| :: y.leaves[i] != y.leaves[j])
  }

  /** The acquire of the current ring, if it is still running, finds the holder empty. */
  ghost predicate GenerationInv(y: Sys) {
    && (forall t <- y.threads :: t < y.nextThread)
    && (forall t <- y.threads | y.threads[t].Acquiring? || y.threads[t].Acquired? ::
          y.threads[t].generation <= y.s.generation && (y.threads[t].generation == y.s.generation ==> y.s.held.None?))
    && (forall t, u | t in y.threads && u in y.threads && t != u
                      && (y.threads[t].Acquiring? || y.threads[t].Acquired?)
                      && (y.threads[u].Acquiring? || y.threads[u].Acquired?) ::
          y.threads[t].generation != y.threads[u].generation)
  }

  ghost predicate Recording(y: Sys, clip: nat) {
    (y.s.held.Some? && y.s.held.value.clip == clip) || exists t :: t in y.threads && Records(y.threads[t], clip)
  }

  /** A clip still open is the held one's, or its goroutine is still to close it. */
  ghost predicate ClipInv(y: Sys) {
    forall c <- y.openClips :: Recording(y, c)
  }

  lemma SwapKeepsLeases(y: Sys)
    requires LeaseInv(y) && GenerationInv(y)
    ensures LeaseInv(Swapped(y))
  {
  }

  lemma SwapKeepsGenerations(y: Sys)
    requires GenerationInv(y)
    ensures GenerationInv(Swapped(y))
    ensures forall t <- Swapped(y).threads | Swapped(y).threads[t].Acquiring? || Swapped(y).threads[t].Acquired? ::
              Swapped(y).threads[t].generation < Swapped(y).s.generation
  {
  }

  lemma SwapKeepsClips(y: Sys)
    requires GenerationInv(y) && ClipInv(y)
    ensures ClipInv(Swapped(y))
  {
    var n := Swapped(y);
    if y.s.held.Some? {
      assert Records(n.threads[y.nextThread], y.s.held.value.clip);
    }
    forall c <- n.openClips
      ensures Recording(n, c)
    {
      assert Recording(y, c);
      if t :| t in y.threads && Records(y.threads[t], c) {
        assert t in n.threads && Records(n.threads[t], c);
      }
    }
  }

  lemma SwapKeeps(y: Sys)
    requires LeaseInv(y) && GenerationInv(y) && ClipInv(y)
    ensures LeaseInv(Swapped(y)) && GenerationInv(Swapped(y)) && ClipInv(Swapped(y))
    ensures forall t <- Swapped(y).threads | Swapped(y).threads[t].Acquiring? || Swapped(y).threads[t].Acquired? ::
              Swapped(y).threads[t].generation < Swapped(y).s.generation
  {
    SwapKeepsLeases(y);
    SwapKeepsGenerations(y);
    SwapKeepsClips(y);
  }

  ghost predicate Acquires(y: Sys, n: Sys) {
    && (forall t <- y.threads | y.threads[t].Acquiring? || y.threads[t].Acquired? ::
          y.threads[t].generation < y.s.generation)
    && n == Spawn(y.(openClips := y.openClips + {y.nextThread}), Acquiring(y.s.generation, y.nextThread))
  }

  lemma AcquireKeepsLeases(y: Sys, n: Sys)
    requires LeaseInv(y) && GenerationInv(y) && y.s.held.None? && Acquires(y, n)
    ensures LeaseInv(n)
  {
  }

  lemma AcquireKeepsGenerations(y: Sys, n: Sys)
    requires GenerationInv(y) && y.s.held.None? && Acquires(y, n)
    ensures GenerationInv(n)
  {
  }

  lemma AcquireKeepsClips(y: Sys, n: Sys)
    requires GenerationInv(y) && ClipInv(y) && y.s.held.None? && Acquires(y, n)
    ensures ClipInv(n)
  {
    forall c <- n.openClips
      ensures Recording(n, c)
    {
      if c == y.nextThread {
        assert Records(n.threads[y.nextThread], c);
      } else {
        assert Recording(y, c);
        var t :| t in y.threads && Records(y.threads[t], c);
        assert t in n.threads && Records(n.threads[t], c);
      }
    }
  }

  lemma AcquireKeeps(y: Sys, n: Sys)
    requires LeaseInv(y) && GenerationInv(y) && ClipInv(y) && y.s.held.None? && Acquires(y, n)
    ensures LeaseInv(n) && GenerationInv(n) && ClipInv(n)
  {
    AcquireKeepsLeases(y, n);
    AcquireKeepsGenerations(y, n);
    AcquireKeepsClips(y, n);
  }

  lemma ThreadKeepsGenerations(y: Sys, t: nat, ok: bool)
    requires LeaseInv(y) && GenerationInv(y) && t in y.threads
    ensures GenerationInv(StepThread(y, t, ok))
  {
  }

  lemma AcquiringKeepsLeases(y: Sys, t: nat, ok: bool)
    requires LeaseInv(y) && t in y.threads && y.threads[t].Acquiring?
    ensures LeaseInv(StepThread(y, t, ok))
  {
    if ok {
      NewLeaseKeepsLeases(y, t, y.nextLease, y.threads[t].generation, y.threads[t].clip, StepThread(y, t, ok));
    } else {
      FailureKeepsLeases(y, t, y.threads[t].clip, StepThread(y, t, ok));
    }
  }

  lemma FailureKeepsLeases(y: Sys, t: nat, clip: nat, n: Sys)
    requires LeaseInv(y) && t in y.threads && y.threads[t].Acquiring? && n == y.(threads := y.threads[t := Failed(clip)])
    ensures LeaseInv(n)
  {
    forall u <- n.threads, l | Carries(n.threads[u], l)
      ensures l in n.place && n.place[l] == With(u)
    {
      assert u != t && Carries(y.threads[u], l);
    }
    forall l <- n.place | n.place[l].With?
      ensures n.place[l].thread in n.threads && Carries(n.threads[n.place[l].thread], l)
    {
      assert Carries(y.threads[y.place[l].thread], l);
    }
  }

  lemma NewLeaseKeepsLeases(y: Sys, t: nat, lease: nat, generation: nat, clip: nat, n: Sys)
    requires LeaseInv(y) && t in y.threads && y.threads[t].Acquiring? && lease == y.nextLease
    requires n == y.(nextLease := lease + 1, place := y.place[lease := With(t)],
                     threads := y.threads[t := Acquired(generation, Hold(lease, clip))])
    ensures LeaseInv(n)
  {
    assert lease !in y.place && lease !in y.leaves;
    assert Carries(n.threads[t], lease);
    forall l <- n.place
      ensures n.place[l] == Held <==> n.s.held.Some? && n.s.held.value.lease == l
    {
      assert l != lease ==> l in y.place;
    }
    forall u <- n.threads, l | Carries(n.threads[u], l)
      ensures l in n.place && n.place[l] == With(u)
    {
      assert u != t ==> Carries(y.threads[u], l);
    }
    forall l <- n.place | n.place[l].With?
      ensures n.place[l].thread in n.threads && Carries(n.threads[n.place[l].thread], l)
    {
      assert l != lease ==> Carries(y.threads[y.place[l].thread], l);
    }
    forall l
      ensures l in n.leaves <==> l in n.place && n.place[l] == Left
    {
      assert l in y.leaves <==> l in y.place && y.place[l] == Left;
    }
  }

  lemma OnlyOneCarries(y: Sys, t: nat, lease: nat)
    requires LeaseInv(y) && t in y.threads && Carries(y.threads[t], lease)
    ensures lease in y.place && y.place[lease] == With(t) && lease !in y.leaves
    ensures forall u <- y.threads | u != t :: !Carries(y.threads[u], lease)
  {
  }

  lemma AcquiredKeepsLeases(y: Sys, t: nat, ok: bool)
    requires LeaseInv(y) && t in y.threads && y.threads[t].Acquired?
    requires y.threads[t].generation == y.s.generation ==> y.s.held.None?
    ensures LeaseInv(StepThread(y, t, ok))
  {
    OnlyOneCarries(y, t, y.threads[t].hold.lease);
  }

  lemma ClosingKeepsLeases(y: Sys, t: nat, ok: bool)
    requires LeaseInv(y) && t in y.threads && y.threads[t].Closing?
    ensures LeaseInv(StepThread(y, t, ok))
  {
    OnlyOneCarries(y, t, y.threads[t].hold.lease);
  }

  lemma LeavingKeepsLeases(y: Sys, t: nat, ok: bool)
    requires LeaseInv(y) && t in y.threads && y.threads[t].Leaving?
    ensures LeaseInv(StepThread(y, t, ok))
  {
    OnlyOneCarries(y, t, y.threads[t].lease);
  }

  lemma ThreadKeepsLeases(y: Sys, t: nat, ok: bool)
    requires LeaseInv(y) && GenerationInv(y) && t in y.threads
    ensures LeaseInv(StepThread(y, t, ok)) && GenerationInv(StepThread(y, t, ok))
  {
    ThreadKeepsGenerations(y, t, ok);
    match y.threads[t]
    case Acquiring(_, _) => AcquiringKeepsLeases(y, t, ok);
    case Acquired(_, _) => AcquiredKeepsLeases(y, t, ok);
    case Closing(_) => ClosingKeepsLeases(y, t, ok);
    case Leaving(_) => LeavingKeepsLeases(y, t, ok);
    case Failed(_) =>
  }

  lemma ThreadKeepsClips(y: Sys, t: nat, ok: bool)
    requires GenerationInv(y) && ClipInv(y) && t in y.threads
    ensures ClipInv(StepThread(y, t, ok))
  {
    var n := StepThread(y, t, ok);
    forall c <- n.openClips
      ensures Recording(n, c)
    {
      assert Recording(y, c);
      if u :| u in y.threads && Records(y.threads[u], c) {
        if u != t || t in n.threads {
          assert u in n.threads && Records(n.threads[u], c);
        }
      }
    }
  }

  lemma {:induction false} ReachInv(actions: seq<Action>)
    ensures LeaseInv(Reach(actions)) && GenerationInv(Reach(actions)) && ClipInv(Reach(actions))
  {
    if actions != [] {
      var y, action := Reach(actions[..|actions| - 1]), actions[|actions| - 1];
      ReachInv(actions[..|actions| - 1]);
      match action
      case Ring(canStream) =>
        SwapKeeps(y);
        if canStream { AcquireKeeps(Swapped(y), Step(y, action)); }
      case RingEnds => SwapKeeps(y);
      case Run(t, ok) =>
        if t in y.threads {
          ThreadKeepsLeases(y, t, ok);
          ThreadKeepsClips(y, t, ok);
        }
    }
  }

  /** Under every interleaving, each lease ever acquired is held, on its way back with one goroutine,
      or given back exactly once; a held lease is never overwritten; and a goroutine that is late
      gives its own lease back. */
  lemma {:induction false} EveryLeaseIsLeftOnce(actions: seq<Action>)
    ensures
      var y := Reach(actions);
      && (forall l | 0 <= l < y.nextLease ::
            && l in y.place
            && (y.place[l] == Held <==> y.s.held.Some? && y.s.held.value.lease == l)
            && (y.place[l] == Left <==> l in y.leaves))
      && (forall i, j | 0 <= i < j < |y.leaves| :: y.leaves[i] != y.leaves[j])
      && (forall t <- y.threads | y.threads[t].Acquired? && y.threads[t].generation == y.s.generation ::
            y.s.held.None?)
  {
    ReachInv(actions);
  }

  /** With every goroutine done, what is not held has been given back, and only the clip of the held
      lease is still recording. */
  lemma {:induction false} NothingLeaks(actions: seq<Action>)
    requires Reach(actions).threads == map[]
    ensures
      var y := Reach(actions);
      && (forall l | 0 <= l < y.nextLease :: l in y.leaves || (y.s.held.Some? && y.s.held.value.lease == l))
      && (forall c <- y.openClips :: y.s.held.Some? && y.s.held.value.clip == c)
  {
    ReachInv(actions);
    assert forall c <- Reach(actions).openClips :: Recording(Reach(actions), c);
  }

  // ----- Which acquire is kept -----

  /** How many rings began or ended. */
  function Rings(actions: seq<Action>): nat {
    if actions == [] then 0
    else Rings(actions[..|actions| - 1]) + (if actions[|actions| - 1].Run? then 0 else 1)
  }

  predicate IsAcquire(y: Sys, t: nat) {
    t in y.threads && (y.threads[t].Acquiring? || y.threads[t].Acquired?)
  }

  lemma StepKeepsAcquire(y: Sys, action: Action, t: nat, n: Sys)
    requires n == Step(y, action) && t < y.nextThread
    ensures t < n.nextThread && n.s.generation == y.s.generation + (if action.Run? then 0 else 1)
    ensures IsAcquire(n, t) ==> IsAcquire(y, t) && n.threads[t].generation == y.threads[t].generation
  {
  }

  lemma {:induction false} AcquireKeepsGeneration(before: seq<Action>, later: seq<Action>, t: nat)
    requires t < Reach(before).nextThread
    ensures
      var y, n := Reach(before), Reach(before + later);
      && t < n.nextThread && n.s.generation == y.s.generation + Rings(later)
      && (IsAcquire(n, t) ==> IsAcquire(y, t) && n.threads[t].generation == y.threads[t].generation)
  {
    if later == [] {
      assert before + later == before;
    } else {
      var earlier, last := later[..|later| - 1], later[|later| - 1];
      AcquireKeepsGeneration(before, earlier, t);
      assert (before + later)[..|before + later| - 1] == before + earlier;
      StepKeepsAcquire(Reach(before + earlier), last, t, Reach(before + later));
    }
  }

  /** A ring takes what was held out of the holder and begins its own acquire. */
  lemma RingBegins(y: Sys, n: Sys)
    requires n == Step(y, Ring(true)) && GenerationInv(y)
    ensures n.s == State(y.s.generation + 1, None) && n.nextThread > 0
    ensures
      var t := n.nextThread - 1;
      t in n.threads && n.threads[t] == Acquiring(n.s.generation, t) && t in n.openClips && t !in y.threads
    ensures y.s.held.Some? ==> y.nextThread in n.threads && n.threads[y.nextThread] == Closing(y.s.held.value)
  {
  }

  /** The end of a ring hands what was held back. */
  lemma RingEndHandsBack(y: Sys, n: Sys)
    requires n == Step(y, RingEnds)
    ensures n.s.held.None?
    ensures y.s.held.Some? ==> y.nextThread in n.threads && n.threads[y.nextThread] == Closing(y.s.held.value)
    ensures y.s.held.None? ==> n.threads == y.threads
  {
  }

  /** An acquire is kept exactly if no ring began or ended since its own; otherwise its clip is closed and
      its lease left. */
  lemma {:induction false} NewestIsKept(before: seq<Action>, later: seq<Action>, ok: bool)
    requires
      var first, y := Reach(before + [Ring(true)]), Reach(before + [Ring(true)] + later);
      first.nextThread > 0 && first.nextThread - 1 in y.threads && y.threads[first.nextThread - 1].Acquired?
    ensures
      var y := Reach(before + [Ring(true)] + later);
      var t := Reach(before + [Ring(true)]).nextThread - 1;
      var n := Step(y, Run(t, ok));
      if Rings(later) == 0 then n.s.held == Some(y.threads[t].hold) && t !in n.threads
      else n.s == y.s && t in n.threads && n.threads[t] == Closing(y.threads[t].hold)
  {
    var ring := before + [Ring(true)];
    assert ring[..|before|] == before;
    ReachInv(before);
    RingBegins(Reach(before), Reach(ring));
    AcquireKeepsGeneration(ring, later, Reach(ring).nextThread - 1);
    AcquireEnds(Reach(ring + later), Reach(ring).nextThread - 1, ok);
  }

  lemma AcquireEnds(y: Sys, t: nat, ok: bool)
    requires t in y.threads && y.threads[t].Acquired?
    ensures
      var n := Step(y, Run(t, ok));
      if y.threads[t].generation == y.s.generation then n.s.held == Some(y.threads[t].hold) && t !in n.threads
      else n.s == y.s && t in n.threads && n.threads[t] == Closing(y.threads[t].hold)
  {
  }
}
