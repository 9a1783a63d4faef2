/** The claim rate limit (internal/auth/store.go: allowAttempt, removeExpiredAttempts, and their use in
    Claim).  Times are in milliseconds. */
module RateLimit {
  import opened Prelude

  const RATE_WINDOW: int := 60_000
  const MAX_ATTEMPTS: nat := 5

  datatype Window = Window(start: int, count: nat)

  datatype Outcome = Outcome(windows: map<string, Window>, allowed: bool)

  predicate Expired(w: Window, now: int) {
    now - w.start >= RATE_WINDOW
  }

  function Purge(windows: map<string, Window>, now: int): map<string, Window> {
    map ip | ip in windows && !Expired(windows[ip], now) :: windows[ip]
  }

  /** The window an attempt counts in: a source without a live one opens its own. */
  function Current(windows: map<string, Window>, ip: string, now: int): Window {
    if ip in windows && !Expired(windows[ip], now) then windows[ip] else Window(now, 0)
  }

  function Attempt(windows: map<string, Window>, ip: string, now: int): Outcome {
    var w := Current(windows, ip, now);
    if w.count >= MAX_ATTEMPTS then Outcome(windows[ip := w], false)
    else Outcome(windows[ip := w.(count := w.count + 1)], true)
  }

  class Limiter {
    var attempts: map<string, Window>

    constructor ()
      ensures attempts == map[]
    {
      attempts := map[];
    }

    method RemoveExpiredAttempts(now: int)
      modifies this
      ensures attempts == Purge(old(attempts), now)
    {
      var ips := attempts.Keys;
      while ips != {}
        invariant ips <= attempts.Keys <= old(attempts).Keys
        invariant forall ip <- attempts :: attempts[ip] == old(attempts)[ip]
        invariant forall ip <- old(attempts) | ip !in ips :: ip in attempts <==> !Expired(old(attempts)[ip], now)
        decreases ips
      {
        var ip :| ip in ips;
        ips := ips - {ip};
        if now - attempts[ip].start >= RATE_WINDOW {
          attempts := attempts - {ip};
        }
      }
    }

    method AllowAttempt(ip: string, now: int) returns (allowed: bool)
      modifies this
      ensures Outcome(attempts, allowed) == Attempt(old(attempts), ip, now)
    {
      // The zero window of an unknown source began long ago.
      var attempt := if ip in attempts then attempts[ip] else Window(now - RATE_WINDOW, 0);
      if now - attempt.start >= RATE_WINDOW {
        attempt := Window(now, 0);
      }
      if attempt.count >= MAX_ATTEMPTS {
        attempts := attempts[ip := attempt];
        return false;
      }
      attempt := attempt.(count := attempt.count + 1);
      attempts := attempts[ip := attempt];
      allowed := true;
    }

    /** The limiter's part of Claim. */
    method Claim(ip: string, now: int) returns (allowed: bool)
      modifies this
      ensures Outcome(attempts, allowed) == Attempt(Purge(old(attempts), now), ip, now)
    {
      RemoveExpiredAttempts(now);
      allowed := AllowAttempt(ip, now);
    }
  }

  // ----- Whole runs -----

  datatype Call = Call(ip: string, at: int)

  datatype Record = Record(ip: string, at: int, allowed: bool)

  datatype Run = Run(windows: map<string, Window>, records: seq<Record>)

  /** The claims in order, purging before each one or never. */
  function Replay(calls: seq<Call>, purge: bool): Run {
    if calls == [] then Run(map[], [])
    else
      var r, last := Replay(calls[..|calls| - 1], purge), calls[|calls| - 1];
      var o := Attempt(if purge then Purge(r.windows, last.at) else r.windows, last.ip, last.at);
      Run(o.windows, r.records + [Record(last.ip, last.at, o.allowed)])
  }

  /** Claims are processed in the order of their clock readings. */
  ghost predicate InOrder(calls: seq<Call>) {
    forall i, j | 0 <= i < j < |calls| :: calls[i].at <= calls[j].at
  }

  /** The same windows, up to expired ones. */
  ghost predicate Equivalent(a: map<string, Window>, b: map<string, Window>, now: int) {
    && (forall ip | ip in a && !Expired(a[ip], now) :: ip in b && b[ip] == a[ip])
    && (forall ip | ip in b && !Expired(b[ip], now) :: ip in a && a[ip] == b[ip])
  }

  /** A purge in between, as a new challenge makes, is absorbed by the next claim's own. */
  lemma EarlierPurgeIsAbsorbed(windows: map<string, Window>, earlier: int, now: int)
    requires earlier <= now
    ensures Purge(Purge(windows, earlier), now) == Purge(windows, now)
  {
    assert forall ip <- windows :: Expired(windows[ip], earlier) ==> Expired(windows[ip], now);
  }

  /** Purging expired windows never changes a decision. */
  lemma {:induction false} PurgingIsInvisible(calls: seq<Call>)
    requires InOrder(calls)
    ensures Replay(calls, true).records == Replay(calls, false).records
    ensures calls != [] ==>
              Equivalent(Replay(calls, true).windows, Replay(calls, false).windows, calls[|calls| - 1].at)
  {
    if calls != [] {
      var before, last := calls[..|calls| - 1], calls[|calls| - 1];
      PurgingIsInvisible(before);
      var a, b := Replay(before, true).windows, Replay(before, false).windows;
      assert before != [] ==> before[|before| - 1] == calls[|before| - 1];
      assert Equivalent(a, b, last.at);
      assert Current(Purge(a, last.at), last.ip, last.at) == Current(b, last.ip, last.at);
    }
  }

  /** When a source tried. */
  function Times(calls: seq<Call>, ip: string): seq<int> {
    if calls == [] then []
    else
      var last := calls[|calls| - 1];
      Times(calls[..|calls| - 1], ip) + (if last.ip == ip then [last.at] else [])
  }

  /** Which of these attempts opened the window of the last one: the first opens a window, and so does
      each that comes a minute or more after the latest opening. */
  function Opening(times: seq<int>): (o: nat)
    requires times != []
    ensures o < |times|
  {
    var n := |times| - 1;
    if n == 0 then 0
    else
      var o := Opening(times[..n]);
      if times[n] - times[o] >= 60_000 then n else o
  }

  predicate WindowOf(windows: map<string, Window>, ip: string, times: seq<int>) {
    if times == [] then ip !in windows
    else
      var o := Opening(times);
      ip in windows && windows[ip] == Window(times[o], if |times| - o <= 5 then |times| - o else 5)
  }

  lemma {:induction false} WindowsFollowTimes(calls: seq<Call>, ip: string)
    ensures WindowOf(Replay(calls, false).windows, ip, Times(calls, ip))
  {
    if calls != [] {
      var before, last := calls[..|calls| - 1], calls[|calls| - 1];
      WindowsFollowTimes(before, ip);
      if last.ip == ip {
        AttemptIsCounted(Replay(before, false).windows, ip, Times(before, ip), last.at);
      } else {
        assert Times(calls, ip) == Times(before, ip);
      }
    }
  }

  lemma AttemptIsCounted(windows: map<string, Window>, ip: string, times: seq<int>, now: int)
    requires WindowOf(windows, ip, times)
    ensures
      var o, more := Attempt(windows, ip, now), times + [now];
      WindowOf(o.windows, ip, more) && (o.allowed <==> |more| - Opening(more) <= 5)
  {
    assert (times + [now])[..|times|] == times;
  }

  /** A claim is allowed exactly if it is among the first five of its source since the opening of its
      window; other sources have no part in it. */
  lemma {:induction false} FirstFiveAreAllowed(calls: seq<Call>)
    requires InOrder(calls) && calls != []
    ensures |Replay(calls, true).records| == |calls|
    ensures
      var last := calls[|calls| - 1];
      var times := Times(calls, last.ip);
      && times != []
      && Replay(calls, true).records[|calls| - 1].at == last.at
      && (Replay(calls, true).records[|calls| - 1].allowed <==> |times| - Opening(times) <= 5)
  {
    var before, last := calls[..|calls| - 1], calls[|calls| - 1];
    PurgingIsInvisible(calls);
    EveryCallIsRecorded(before);
    WindowsFollowTimes(before, last.ip);
    AttemptIsCounted(Replay(before, false).windows, last.ip, Times(before, last.ip), last.at);
  }

  lemma {:induction false} EveryCallIsRecorded(calls: seq<Call>)
    ensures |Replay(calls, false).records| == |calls|
  {
    if calls != [] { EveryCallIsRecorded(calls[..|calls| - 1]); }
  }

  /** The allowed attempts of one source at or after `from` and before `to`. */
  function Allowed(records: seq<Record>, ip: string, from: int, to: int): nat {
    if records == [] then 0
    else
      var r := records[|records| - 1];
      Allowed(records[..|records| - 1], ip, from, to)
      + (if r.ip == ip && r.allowed && from <= r.at < to then 1 else 0)
  }

  /** Those in the window that begins at `from`. */
  function AllowedFrom(records: seq<Record>, ip: string, from: int): nat {
    Allowed(records, ip, from, from + RATE_WINDOW)
  }

  lemma {:induction false} AllowedSplits(records: seq<Record>, ip: string, from: int, mid: int, to: int)
    requires from <= mid <= to
    ensures Allowed(records, ip, from, to) == Allowed(records, ip, from, mid) + Allowed(records, ip, mid, to)
  {
    if records != [] {
      AllowedSplits(records[..|records| - 1], ip, from, mid, to);
    }
  }

  lemma {:induction false} NoneAfter(records: seq<Record>, ip: string, from: int, to: int, end: int)
    requires end <= from && forall i | 0 <= i < |records| && records[i].ip == ip && records[i].allowed :: records[i].at < end
    ensures Allowed(records, ip, from, to) == 0
  {
    if records != [] {
      NoneAfter(records[..|records| - 1], ip, from, to, end);
    }
  }

  /** What the run so far says of one source: its window holds `count` allowed attempts, the first of
      them at its start, and all of them within the window; a stretch of less than a window before it
      misses the first attempt of the window before; and the bound holds so far. */
  ghost predicate SourceInv(r: Run, ip: string, now: int) {
    && (forall i | 0 <= i < |r.records| :: r.records[i].at <= now)
    && (forall t :: AllowedFrom(r.records, ip, t) <= 2 * MAX_ATTEMPTS - 1)
    && (if ip !in r.windows then forall i | 0 <= i < |r.records| :: r.records[i].ip != ip
        else
          var w := r.windows[ip];
          && w.start <= now && 1 <= w.count <= MAX_ATTEMPTS
          && (forall i | 0 <= i < |r.records| && r.records[i].ip == ip && r.records[i].allowed ::
                r.records[i].at < w.start + RATE_WINDOW)
          && Allowed(r.records, ip, w.start, w.start + RATE_WINDOW) == w.count
          && Allowed(r.records, ip, w.start + 1, w.start + RATE_WINDOW) <= w.count - 1
          && forall t | w.start - RATE_WINDOW < t <= w.start :: Allowed(r.records, ip, t, w.start) <= MAX_ATTEMPTS - 1)
  }

  /** One more attempt of the source itself. */
  lemma AttemptKeepsSource(r: Run, ip: string, was: int, now: int)
    requires SourceInv(r, ip, was) && was <= now
    ensures
      var o := Attempt(r.windows, ip, now);
      SourceInv(Run(o.windows, r.records + [Record(ip, now, o.allowed)]), ip, now)
  {
    var o := Attempt(r.windows, ip, now);
    var records := r.records + [Record(ip, now, o.allowed)];
    assert records[..|r.records|] == r.records;
    forall from, to
      ensures Allowed(records, ip, from, to) ==
              Allowed(r.records, ip, from, to) + (if o.allowed && from <= now < to then 1 else 0)
    {
    }
    assert forall t :: AllowedFrom(records, ip, t) ==
                       AllowedFrom(r.records, ip, t) + (if o.allowed && t <= now < t + RATE_WINDOW then 1 else 0);
    if ip !in r.windows {
      forall from, to
        ensures Allowed(r.records, ip, from, to) == 0
      {
        NoneAfter(r.records, ip, from, to, from);
      }
    } else if Expired(r.windows[ip], now) {
      NewWindow(r, ip, was, now);
    } else if o.allowed {
      SameWindow(r, ip, was, now);
    }
  }

  lemma SameWindow(r: Run, ip: string, was: int, now: int)
    requires SourceInv(r, ip, was) && was <= now && ip in r.windows && !Expired(r.windows[ip], now)
    requires r.windows[ip].count < MAX_ATTEMPTS
    ensures forall t | t <= now < t + RATE_WINDOW :: AllowedFrom(r.records, ip, t) <= 2 * MAX_ATTEMPTS - 2
  {
    var w := r.windows[ip];
    forall t | t <= now < t + RATE_WINDOW
      ensures AllowedFrom(r.records, ip, t) <= 2 * MAX_ATTEMPTS - 2
    {
      if t <= w.start {
        AllowedSplits(r.records, ip, t, w.start, t + RATE_WINDOW);
        AllowedSplits(r.records, ip, w.start, t + RATE_WINDOW, w.start + RATE_WINDOW);
      } else {
        AllowedSplits(r.records, ip, w.start, t, w.start + RATE_WINDOW);
        AllowedSplits(r.records, ip, t, w.start + RATE_WINDOW, t + RATE_WINDOW);
        NoneAfter(r.records, ip, w.start + RATE_WINDOW, t + RATE_WINDOW, w.start + RATE_WINDOW);
      }
    }
  }

  lemma NewWindow(r: Run, ip: string, was: int, now: int)
    requires SourceInv(r, ip, was) && was <= now && ip in r.windows && Expired(r.windows[ip], now)
    ensures forall t, u | now - RATE_WINDOW < t <= u :: Allowed(r.records, ip, t, u) <= MAX_ATTEMPTS - 1
    ensures forall t, u | now <= t :: Allowed(r.records, ip, t, u) == 0
  {
    var w := r.windows[ip];
    var end := w.start + RATE_WINDOW;
    forall t, u | now <= t
      ensures Allowed(r.records, ip, t, u) == 0
    {
      NoneAfter(r.records, ip, t, u, end);
    }
    forall t, u | now - RATE_WINDOW < t <= u
      ensures Allowed(r.records, ip, t, u) <= MAX_ATTEMPTS - 1
    {
      var last := if u <= end then end else u;
      AllowedSplits(r.records, ip, t, u, last);
      if t <= end {
        AllowedSplits(r.records, ip, t, end, last);
        AllowedSplits(r.records, ip, w.start + 1, t, end);
      }
      NoneAfter(r.records, ip, if t <= end then end else t, last, end);
    }
  }

  /** An attempt of another source leaves this one's count alone. */
  lemma OtherKeepsSource(r: Run, ip: string, was: int, other: string, now: int)
    requires SourceInv(r, ip, was) && was <= now && other != ip
    ensures
      var o := Attempt(r.windows, other, now);
      SourceInv(Run(o.windows, r.records + [Record(other, now, o.allowed)]), ip, now)
  {
    var o := Attempt(r.windows, other, now);
    var records := r.records + [Record(other, now, o.allowed)];
    assert records[..|r.records|] == r.records;
    forall from, to
      ensures Allowed(records, ip, from, to) == Allowed(r.records, ip, from, to)
    {
    }
    assert forall t :: AllowedFrom(records, ip, t) == AllowedFrom(r.records, ip, t);
  }

  lemma {:induction false} ReplayKeepsSource(calls: seq<Call>, ip: string)
    requires InOrder(calls) && calls != []
    ensures SourceInv(Replay(calls, false), ip, calls[|calls| - 1].at)
  {
    var before, last := calls[..|calls| - 1], calls[|calls| - 1];
    var was := if before == [] then last.at else before[|before| - 1].at;
    if before != [] {
      ReplayKeepsSource(before, ip);
    }
    if last.ip == ip {
      AttemptKeepsSource(Replay(before, false), ip, was, last.at);
    } else {
      OtherKeepsSource(Replay(before, false), ip, was, last.ip, last.at);
    }
  }

  /** In any half-open interval as long as the window, one source is allowed at most nine claims. */
  lemma AtMostNineAttempts(calls: seq<Call>, ip: string, t: int)
    requires InOrder(calls)
    ensures AllowedFrom(Replay(calls, true).records, ip, t) <= 9
  {
    PurgingIsInvisible(calls);
    if calls != [] {
      ReplayKeepsSource(calls, ip);
    }
  }

  function Burst<T>(x: T, n: nat): seq<T> {
    seq(n, _ => x)
  }

  lemma OneMoreIsAllowed(windows: map<string, Window>, ip: string, at: int)
    requires Current(windows, ip, at).count < MAX_ATTEMPTS
    ensures
      var o, w := Attempt(Purge(windows, at), ip, at), Current(windows, ip, at);
      && o.allowed && ip in o.windows && o.windows[ip] == w.(count := w.count + 1)
      && Current(o.windows, ip, at) == o.windows[ip]
  {
  }

  lemma ReplayOneMore(calls: seq<Call>, ip: string, at: int)
    requires Current(Replay(calls, true).windows, ip, at).count < MAX_ATTEMPTS
    ensures
      var r, s := Replay(calls, true), Replay(calls + [Call(ip, at)], true);
      var w := Current(r.windows, ip, at);
      && s.records == r.records + [Record(ip, at, true)]
      && ip in s.windows && s.windows[ip] == w.(count := w.count + 1) == Current(s.windows, ip, at)
  {
    assert (calls + [Call(ip, at)])[..|calls|] == calls;
    OneMoreIsAllowed(Replay(calls, true).windows, ip, at);
  }

  /** While the window has room, every attempt of a burst is allowed. */
  lemma {:induction false} BurstIsAllowed(calls: seq<Call>, ip: string, at: int, n: nat)
    requires Current(Replay(calls, true).windows, ip, at).count + n <= MAX_ATTEMPTS
    ensures
      var s, w := Replay(calls + Burst(Call(ip, at), n), true), Current(Replay(calls, true).windows, ip, at);
      && s.records == Replay(calls, true).records + Burst(Record(ip, at, true), n)
      && Current(s.windows, ip, at) == Window(w.start, w.count + n)
      && (n > 0 ==> ip in s.windows && s.windows[ip] == Window(w.start, w.count + n))
  {
    if n == 0 {
      assert calls + Burst(Call(ip, at), 0) == calls;
    } else {
      var fewer := calls + Burst(Call(ip, at), n - 1);
      BurstIsAllowed(calls, ip, at, n - 1);
      ReplayOneMore(fewer, ip, at);
      BurstGrows(calls, Call(ip, at), n);
      BurstGrows(Replay(calls, true).records, Record(ip, at, true), n);
    }
  }

  lemma BurstGrows<T>(before: seq<T>, x: T, n: nat)
    requires n > 0
    ensures before + Burst(x, n) == before + Burst(x, n - 1) + [x]
  {
  }

  lemma {:induction false} AllowedInBurst(records: seq<Record>, ip: string, at: int, n: nat, from: int, to: int)
    ensures Allowed(records + Burst(Record(ip, at, true), n), ip, from, to) ==
            Allowed(records, ip, from, to) + (if from <= at < to then n else 0)
  {
    var more := records + Burst(Record(ip, at, true), n);
    if n == 0 {
      assert more == records;
    } else {
      assert more[..|more| - 1] == records + Burst(Record(ip, at, true), n - 1);
      AllowedInBurst(records, ip, at, n - 1, from, to);
    }
  }

  lemma BurstCounts(calls: seq<Call>, ip: string, at: int, n: nat) returns (more: seq<Call>)
    requires Current(Replay(calls, true).windows, ip, at).count + n <= MAX_ATTEMPTS
    requires calls == [] || calls[|calls| - 1].at <= at
    requires InOrder(calls) && 0 <= at < 1 + RATE_WINDOW
    ensures more == calls + Burst(Call(ip, at), n) && InOrder(more)
    ensures Allowed(Replay(more, true).records, ip, 1, 1 + RATE_WINDOW) ==
            Allowed(Replay(calls, true).records, ip, 1, 1 + RATE_WINDOW) + (if at >= 1 then n else 0)
    ensures
      var w := Current(Replay(calls, true).windows, ip, at);
      n > 0 ==> ip in Replay(more, true).windows && Replay(more, true).windows[ip] == Window(w.start, w.count + n)
  {
    more := calls + Burst(Call(ip, at), n);
    BurstIsAllowed(calls, ip, at, n);
    AllowedInBurst(Replay(calls, true).records, ip, at, n, 1, 1 + RATE_WINDOW);
  }

  /** Nine is reached: one claim opens a window, four more come at its end and five right after it. */
  lemma NineAttemptsHappen(ip: string) returns (calls: seq<Call>)
    ensures InOrder(calls) && AllowedFrom(Replay(calls, true).records, ip, 1) == 9
  {
    calls := BurstCounts([], ip, 0, 1);
    assert Replay(calls, true).windows[ip] == Window(0, 1);
    calls := BurstCounts(calls, ip, RATE_WINDOW - 1, 4);
    assert Replay(calls, true).windows[ip] == Window(0, 5);
    calls := BurstCounts(calls, ip, RATE_WINDOW, 5);
  }
}
