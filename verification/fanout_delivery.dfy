/** Joining, leaving and delivering at once (internal/media/fanout.go).

    Video, a join and a replay each hold the delivery lock; removing a consumer and closing take
    only the list lock, so they run in the middle of a delivery or of a join. */
module FanoutDelivery {
  import opened F = Fanout

  /** What one consumer has received since its latest join or replay, which happened after `joined`
      packets of video and `since` calls, and replayed from packet `start` on. */
  datatype Feed = Feed(start: nat, joined: nat, packets: seq<Packet>, since: nat)

  /** Who holds the delivery lock: a delivery, with the consumers it has still to call, or a join
      that has replayed but is not on the list yet. */
  datatype Lock = Free | Delivering(rest: seq<nat>) | Joining(id: nat)

  /** `calls` are the calls of consumers' video callbacks, in order; `deaf` are the consumers that joined
      without one. */
  datatype Sys = Sys(
    cache: Cache,
    list: seq<nat>,
    closed: bool,
    lock: Lock,
    history: seq<Packet>,
    feeds: map<nat, Feed>,
    deaf: set<nat>,
    calls: seq<(nat, Packet)>)

  const START := Sys(EMPTY, [], false, Free, [], map[], {}, [])

  datatype Action =
    | BeginVideo(packet: Packet)
    | CallNext
    | BeginJoin(id: nat, video: bool)
    | EndJoin
    | ReplayTo(id: nat)
    | Remove(id: nat)
    | Close

  function NewFeed(s: Sys): Feed
    requires |s.cache.packets| <= |s.history|
  {
    Feed(|s.history| - |s.cache.packets|, |s.history|, s.cache.packets, |s.calls|)
  }

  /** The next call of a delivery, to a consumer that takes video. */
  function Receive(s: Sys, id: nat): Sys
    requires s.history != [] && id in s.feeds
  {
    var feed, p := s.feeds[id], s.history[|s.history| - 1];
    s.(feeds := s.feeds[id := feed.(packets := feed.packets + [p])], calls := s.calls + [(id, p)])
  }

  /** Sends the cache to one consumer. */
  function Replayed(s: Sys, id: nat): Sys
    requires |s.cache.packets| <= |s.history|
  {
    s.(feeds := s.feeds[id := NewFeed(s)], calls := s.calls + Replays(id, s.cache.packets))
  }

  function Drop(list: seq<nat>, id: nat): seq<nat> {
    if list == [] then [] else if list[0] == id then list[1..] else [list[0]] + Drop(list[1..], id)
  }

  /** What a step relies on: the cache comes from the history, and a delivery calls known consumers. */
  ghost predicate Runnable(s: Sys) {
    && |s.cache.packets| <= |s.history|
    && (s.lock.Delivering? ==> (s.lock.rest != [] ==> s.history != []) && forall id <- s.lock.rest :: id in s.feeds || id in s.deaf)
  }

  function Step(s: Sys, action: Action): Sys
    requires Runnable(s)
  {
    match action
    case BeginVideo(p) =>
      if !s.lock.Free? then s
      else s.(cache := Remember(s.cache, p), history := s.history + [p], lock := Delivering(s.list))
    case CallNext =>
      if !s.lock.Delivering? then s
      else if s.lock.rest == [] then s.(lock := Free)
      else
        (if s.lock.rest[0] in s.deaf then s else Receive(s, s.lock.rest[0])).(lock := Delivering(s.lock.rest[1..]))
    case BeginJoin(id, video) =>
      if !s.lock.Free? || s.closed || id in s.feeds || id in s.deaf then s
      else (if video then Replayed(s, id) else s.(deaf := s.deaf + {id})).(lock := Joining(id))
    case EndJoin =>
      if !s.lock.Joining? then s
      else s.(list := if s.closed then s.list else s.list + [s.lock.id], lock := Free)
    case ReplayTo(id) =>
      if !s.lock.Free? || id !in s.list || id in s.deaf then s else Replayed(s, id)
    case Remove(id) =>
      if id !in s.list then s
      else s.(list := Drop(s.list, id), closed := s.closed || |s.list| == 1)
    case Close => s.(closed := true)
  }

  ghost predicate Distinct(list: seq<nat>) {
    forall i, j | 0 <= i < j < |list| :: list[i] != list[j]
  }

  /** How much of the history a consumer should have: a delivery in progress may still owe it one
      packet. */
  function Due(s: Sys, id: nat): nat {
    if s.lock.Delivering? && id in s.lock.rest && s.history != [] then |s.history| - 1 else |s.history|
  }

  /** A feed is an unbroken segment of the video history that covers everything since the join, and
      begins at a keyframe if it begins before. */
  ghost predicate Unbroken(s: Sys, feed: Feed) {
    && feed.start <= feed.joined <= feed.start + |feed.packets| <= |s.history|
    && feed.packets == s.history[feed.start..feed.start + |feed.packets|]
    && (feed.start < feed.joined ==> K.Starts(s.history[feed.start].payload))
  }

  ghost predicate CacheInv(s: Sys) {
    CacheValid(s.cache) && Suffix(s.cache.packets, s.history)
  }

  ghost predicate Inv(s: Sys) {
    CacheInv(s) && FeedInv(s)
  }

  ghost predicate UpTo(s: Sys, id: nat, n: int) {
    id in s.deaf || (id in s.feeds && s.feeds[id].start + |s.feeds[id].packets| == n)
  }

  ghost predicate FeedInv(s: Sys) {
    && Distinct(s.list)
    && (forall id <- s.feeds :: id !in s.deaf && Unbroken(s, s.feeds[id]))
    && (forall id <- s.list :: UpTo(s, id, Due(s, id)))
    && (s.lock.Joining? ==> s.lock.id !in s.list && UpTo(s, s.lock.id, |s.history|))
    && (s.lock.Delivering? ==>
          s.history != [] && Distinct(s.lock.rest) && forall id <- s.lock.rest :: UpTo(s, id, |s.history| - 1))
  }

  lemma {:induction false} DropKeeps(list: seq<nat>, id: nat)
    requires Distinct(list) && id in list
    ensures Distinct(Drop(list, id)) && |Drop(list, id)| == |list| - 1
    ensures forall x :: x in Drop(list, id) <==> x in list && x != id
  {
    assert list == [list[0]] + list[1..];
    assert list[0] !in list[1..];
    if list[0] != id {
      DropKeeps(list[1..], id);
      assert list[0] !in Drop(list[1..], id);
    }
  }

  lemma VideoKeepsInv(s: Sys, p: Packet)
    requires Inv(s) && Runnable(s) && s.lock.Free?
    ensures Inv(Step(s, BeginVideo(p)))
  {
    var n := Step(s, BeginVideo(p));
    RememberKeepsCache(s.cache, p, s.history);
    forall id <- n.feeds
      ensures Unbroken(n, n.feeds[id])
    {
      assert Unbroken(s, s.feeds[id]);
    }
  }

  lemma NextPacketUnbroken(s: Sys, feed: Feed, next: Feed)
    requires Unbroken(s, feed) && s.history != [] && feed.start + |feed.packets| == |s.history| - 1
    requires next == feed.(packets := feed.packets + [s.history[|s.history| - 1]])
    ensures Unbroken(s, next) && next.start + |next.packets| == |s.history|
  {
    assert next.packets == s.history[feed.start..];
  }

  lemma CallKeepsFeeds(s: Sys)
    requires Inv(s) && Runnable(s) && s.lock.Delivering? && s.lock.rest != []
    ensures FeedInv(Step(s, CallNext))
  {
    var id, rest := s.lock.rest[0], s.lock.rest[1..];
    RestOfDistinct(s.lock.rest);
    if id in s.deaf {
      DeafCallKeepsFeeds(s, id, rest, s.(lock := Delivering(rest)));
    } else {
      NextCallKeepsFeeds(s, id, rest, Receive(s, id).(lock := Delivering(rest)));
    }
  }

  lemma RestOfDistinct(list: seq<nat>)
    requires list != [] && Distinct(list)
    ensures Distinct(list[1..]) && list[0] !in list[1..]
    ensures forall x :: x in list <==> x == list[0] || x in list[1..]
  {
    assert list == [list[0]] + list[1..];
    forall i | 0 <= i < |list[1..]|
      ensures list[1..][i] == list[i + 1] != list[0]
    {
    }
  }

  ghost predicate Calling(s: Sys, id: nat, rest: seq<nat>) {
    && s.lock.Delivering? && s.history != [] && Distinct(rest) && id !in rest
    && forall x :: x in s.lock.rest <==> x == id || x in rest
  }

  lemma DeafCallKeepsFeeds(s: Sys, id: nat, rest: seq<nat>, n: Sys)
    requires FeedInv(s) && Calling(s, id, rest) && id in s.deaf && n == s.(lock := Delivering(rest))
    ensures FeedInv(n)
  {
    forall x <- n.feeds
      ensures Unbroken(n, n.feeds[x])
    {
      assert Unbroken(s, s.feeds[x]);
    }
    forall x <- n.list
      ensures UpTo(n, x, Due(n, x))
    {
      assert UpTo(s, x, Due(s, x));
    }
    forall x <- rest
      ensures UpTo(n, x, |n.history| - 1)
    {
      assert UpTo(s, x, |s.history| - 1);
    }
  }

  lemma NextCallKeepsFeeds(s: Sys, id: nat, rest: seq<nat>, n: Sys)
    requires FeedInv(s) && Calling(s, id, rest) && id in s.feeds && n == Receive(s, id).(lock := Delivering(rest))
    ensures FeedInv(n)
  {
    assert UpTo(s, id, |s.history| - 1);
    NextPacketUnbroken(s, s.feeds[id], n.feeds[id]);
    forall x <- n.feeds
      ensures x !in n.deaf && Unbroken(n, n.feeds[x])
    {
      assert Unbroken(s, n.feeds[x]);
    }
    forall x <- n.list
      ensures UpTo(n, x, Due(n, x))
    {
      assert UpTo(s, x, Due(s, x));
    }
    forall x <- rest
      ensures UpTo(n, x, |n.history| - 1)
    {
      assert UpTo(s, x, |s.history| - 1);
    }
  }

  /** A join or a replay starts a new feed at the head of the cache. */
  lemma NewFeedUnbroken(s: Sys)
    requires Inv(s)
    ensures Unbroken(s, NewFeed(s)) && NewFeed(s).start + |NewFeed(s).packets| == |s.history|
  {
    var feed := NewFeed(s);
    assert s.history[feed.start..] == feed.packets;
  }

  lemma NewFeedKeepsFeeds(s: Sys, id: nat, n: Sys)
    requires Inv(s) && s.lock.Free? && n.feeds == s.feeds[id := NewFeed(s)] && id !in s.deaf && n.deaf == s.deaf
    requires n.history == s.history && n.list == s.list && n.closed == s.closed
    requires n.lock == Free || (n.lock == Joining(id) && id !in s.list)
    ensures FeedInv(n)
  {
    NewFeedUnbroken(s);
    assert Unbroken(n, n.feeds[id]);
    forall x <- n.feeds | x != id
      ensures Unbroken(n, n.feeds[x])
    {
      assert Unbroken(s, s.feeds[x]);
    }
  }

  lemma DeafJoinKeepsFeeds(s: Sys, id: nat, n: Sys)
    requires Inv(s) && s.lock.Free? && id !in s.feeds && id !in s.deaf && id !in s.list
    requires n == s.(deaf := s.deaf + {id}, lock := Joining(id))
    ensures FeedInv(n)
  {
    forall x <- n.feeds
      ensures Unbroken(n, n.feeds[x])
    {
      assert Unbroken(s, s.feeds[x]);
    }
  }

  lemma JoinKeepsFeeds(s: Sys, action: Action)
    requires Inv(s) && Runnable(s) && (action.BeginJoin? || action.ReplayTo?)
    ensures FeedInv(Step(s, action))
  {
    var n := Step(s, action);
    if action.BeginJoin? && n != s {
      assert action.id !in s.list;
      if action.video { NewFeedKeepsFeeds(s, action.id, n); } else { DeafJoinKeepsFeeds(s, action.id, n); }
    } else if action.ReplayTo? && s.lock.Free? && action.id in s.list && action.id !in s.deaf {
      NewFeedKeepsFeeds(s, action.id, n);
    }
  }

  lemma StepKeepsInv(s: Sys, action: Action)
    requires Inv(s) && Runnable(s)
    ensures Inv(Step(s, action))
  {
    match action
    case BeginVideo(p) => if s.lock.Free? { VideoKeepsInv(s, p); }
    case CallNext => if s.lock.Delivering? && s.lock.rest != [] { CallKeepsFeeds(s); }
    case Remove(id) => RemoveKeepsFeeds(s, id);
    case Close =>
    case EndJoin => EndJoinKeepsFeeds(s);
    case _ => JoinKeepsFeeds(s, action);
  }

  lemma EndJoinKeepsFeeds(s: Sys)
    requires Inv(s) && Runnable(s)
    ensures FeedInv(Step(s, EndJoin))
  {
    var n := Step(s, EndJoin);
    assert forall i | 0 <= i < |s.list| :: s.list[i] in s.list;
    forall x <- n.feeds
      ensures Unbroken(n, n.feeds[x])
    {
      assert Unbroken(s, s.feeds[x]);
    }
  }

  lemma RemoveKeepsFeeds(s: Sys, id: nat)
    requires Inv(s) && Runnable(s)
    ensures FeedInv(Step(s, Remove(id)))
  {
    if id in s.list {
      DropKeeps(s.list, id);
    }
  }

  function Reach(actions: seq<Action>): (s: Sys)
    ensures Inv(s) && Runnable(s)
  {
    if actions == [] then START
    else
      var s := Reach(actions[..|actions| - 1]);
      StepKeepsInv(s, actions[|actions| - 1]);
      Step(s, actions[|actions| - 1])
  }

  // ----- Where a feed begins -----

  /** What the cache holds after a history. */
  function CacheAfter(history: seq<Packet>): Cache {
    RememberAll(EMPTY, history)
  }

  /** A feed begins with what the cache held when it was joined or replayed. */
  ghost predicate FromCache(history: seq<Packet>, feed: Feed) {
    feed.joined <= |history| && feed.start + |CacheAfter(history[..feed.joined]).packets| == feed.joined
  }

  ghost predicate OriginInv(s: Sys) {
    s.cache == CacheAfter(s.history) && forall id <- s.feeds :: FromCache(s.history, s.feeds[id])
  }

  lemma VideoKeepsOrigin(s: Sys, p: Packet)
    requires Runnable(s) && OriginInv(s) && s.lock.Free?
    ensures OriginInv(Step(s, BeginVideo(p)))
  {
    var n := Step(s, BeginVideo(p));
    assert n.history[..|s.history|] == s.history;
    forall id <- n.feeds
      ensures FromCache(n.history, n.feeds[id])
    {
      assert FromCache(s.history, s.feeds[id]);
      assert n.history[..n.feeds[id].joined] == s.history[..s.feeds[id].joined];
    }
  }

  lemma NewFeedFromCache(s: Sys)
    requires Runnable(s) && OriginInv(s)
    ensures FromCache(s.history, NewFeed(s))
  {
    assert s.history[..|s.history|] == s.history;
  }

  lemma FeedKeepsOrigin(s: Sys, n: Sys, id: nat, feed: Feed)
    requires OriginInv(s) && n.cache == s.cache && n.history == s.history && FromCache(s.history, feed)
    requires n.feeds == s.feeds[id := feed]
    ensures OriginInv(n)
  {
    forall x <- n.feeds
      ensures FromCache(n.history, n.feeds[x])
    {
      assert x != id ==> FromCache(s.history, s.feeds[x]);
    }
  }

  lemma CallKeepsOrigin(s: Sys)
    requires Runnable(s) && OriginInv(s) && s.lock.Delivering? && s.lock.rest != []
    ensures OriginInv(Step(s, CallNext))
  {
    var id, n := s.lock.rest[0], Step(s, CallNext);
    if id in s.deaf {
      assert n.feeds == s.feeds && n.history == s.history && n.cache == s.cache;
    } else {
      assert FromCache(s.history, s.feeds[id]);
      FeedKeepsOrigin(s, n, id, n.feeds[id]);
    }
  }

  lemma JoinKeepsOrigin(s: Sys, action: Action)
    requires Runnable(s) && OriginInv(s) && (action.BeginJoin? || action.ReplayTo?)
    ensures OriginInv(Step(s, action))
  {
    var n := Step(s, action);
    NewFeedFromCache(s);
    if n.feeds == s.feeds {
      assert n.history == s.history && n.cache == s.cache;
    } else {
      FeedKeepsOrigin(s, n, action.id, NewFeed(s));
    }
  }

  lemma OthersKeepOrigin(s: Sys, action: Action)
    requires Runnable(s) && OriginInv(s) && (action.EndJoin? || action.Remove? || action.Close?)
    ensures OriginInv(Step(s, action))
  {
    var n := Step(s, action);
    assert n.feeds == s.feeds && n.history == s.history && n.cache == s.cache;
  }

  lemma StepKeepsOrigin(s: Sys, action: Action)
    requires Runnable(s) && OriginInv(s)
    ensures OriginInv(Step(s, action))
  {
    if action.BeginVideo? {
      if s.lock.Free? { VideoKeepsOrigin(s, action.packet); }
    } else if action.BeginJoin? || action.ReplayTo? {
      JoinKeepsOrigin(s, action);
    } else if !action.CallNext? {
      OthersKeepOrigin(s, action);
    } else if s.lock.Delivering? && s.lock.rest != [] {
      CallKeepsOrigin(s);
    }
  }

  lemma {:induction false} ReachOrigin(actions: seq<Action>)
    ensures OriginInv(Reach(actions))
  {
    if actions != [] {
      ReachOrigin(actions[..|actions| - 1]);
      StepKeepsOrigin(Reach(actions[..|actions| - 1]), actions[|actions| - 1]);
    }
  }

  /** A join with a video callback or a replay that takes place. */
  predicate Joins(s: Sys, action: Action, id: nat) {
    && s.lock.Free? && id !in s.deaf
    && ((action == BeginJoin(id, true) && !s.closed && id !in s.feeds) || (action == ReplayTo(id) && id in s.list))
  }

  /** The state at the latest of them. */
  function LatestJoin(actions: seq<Action>, id: nat): Sys {
    if actions == [] then START
    else
      var s, last := Reach(actions[..|actions| - 1]), actions[|actions| - 1];
      if Joins(s, last, id) then s else LatestJoin(actions[..|actions| - 1], id)
  }

  lemma StepJoins(s: Sys, action: Action, id: nat)
    requires Runnable(s) && id in Step(s, action).feeds
    ensures Joins(s, action, id) ==>
              Step(s, action).feeds[id].joined == |s.history| && Step(s, action).feeds[id].since == |s.calls|
    ensures !Joins(s, action, id) ==>
              && id in s.feeds && Step(s, action).feeds[id].joined == s.feeds[id].joined
              && Step(s, action).feeds[id].since == s.feeds[id].since
  {
  }

  lemma {:induction false} JoinedAtLatest(actions: seq<Action>, id: nat)
    requires id in Reach(actions).feeds
    ensures Reach(actions).feeds[id].joined == |LatestJoin(actions, id).history|
    ensures Reach(actions).feeds[id].since == |LatestJoin(actions, id).calls|
  {
    if actions != [] {
      var s, last := Reach(actions[..|actions| - 1]), actions[|actions| - 1];
      StepJoins(s, last, id);
      if !Joins(s, last, id) { JoinedAtLatest(actions[..|actions| - 1], id); }
    }
  }

  // ----- The calls -----

  /** What the calls brought one consumer. */
  function Received(calls: seq<(nat, Packet)>, id: nat): seq<Packet> {
    if calls == [] then []
    else
      var last := calls[|calls| - 1];
      Received(calls[..|calls| - 1], id) + (if last.0 == id then [last.1] else [])
  }

  lemma {:induction false} ReceivedConcat(a: seq<(nat, Packet)>, b: seq<(nat, Packet)>, id: nat)
    ensures Received(a + b, id) == Received(a, id) + Received(b, id)
  {
    if b == [] {
      assert a + b == a;
    } else {
      assert (a + b)[..|a + b| - 1] == a + b[..|b| - 1];
      ReceivedConcat(a, b[..|b| - 1], id);
    }
  }

  lemma {:induction false} ReplaysReceived(to: nat, packets: seq<Packet>, id: nat)
    ensures Received(Replays(to, packets), id) == if to == id then packets else []
  {
    if packets != [] {
      var front := packets[..|packets| - 1];
      assert Replays(to, packets)[..|packets| - 1] == Replays(to, front);
      ReplaysReceived(to, front, id);
    }
  }

  /** A feed is what the calls since its latest join or replay brought. */
  ghost predicate FromCalls(calls: seq<(nat, Packet)>, id: nat, feed: Feed) {
    feed.since <= |calls| && feed.packets == Received(calls[feed.since..], id)
  }

  ghost predicate CallInv(s: Sys) {
    forall id <- s.feeds :: FromCalls(s.calls, id, s.feeds[id])
  }

  lemma MoreCalls(calls: seq<(nat, Packet)>, more: seq<(nat, Packet)>, id: nat, feed: Feed)
    requires FromCalls(calls, id, feed)
    ensures FromCalls(calls + more, id, feed.(packets := feed.packets + Received(more, id)))
  {
    assert (calls + more)[feed.since..] == calls[feed.since..] + more;
    ReceivedConcat(calls[feed.since..], more, id);
  }

  lemma OneCall(to: nat, p: Packet, id: nat)
    ensures Received([(to, p)], id) == if to == id then [p] else []
  {
    assert [(to, p)][..0] == [];
  }

  lemma ReplayKeepsCalls(s: Sys, id: nat, n: Sys)
    requires Runnable(s) && CallInv(s) && n.feeds == Replayed(s, id).feeds && n.calls == Replayed(s, id).calls
    ensures CallInv(n)
  {
    var more := Replays(id, s.cache.packets);
    forall x <- n.feeds
      ensures FromCalls(n.calls, x, n.feeds[x])
    {
      ReplaysReceived(id, s.cache.packets, x);
      if x == id {
        assert n.calls[|s.calls|..] == more;
      } else {
        MoreCalls(s.calls, more, x, s.feeds[x]);
      }
    }
  }

  lemma CallKeepsCalls(s: Sys)
    requires Runnable(s) && CallInv(s) && s.lock.Delivering? && s.lock.rest != [] && s.lock.rest[0] !in s.deaf
    ensures CallInv(Step(s, CallNext))
  {
    var n, id, p := Step(s, CallNext), s.lock.rest[0], s.history[|s.history| - 1];
    var feed := s.feeds[id];
    assert n.feeds == s.feeds[id := feed.(packets := feed.packets + [p])] && n.calls == s.calls + [(id, p)];
    OneMoreCall(s, id, p, n);
  }

  lemma OneMoreCall(s: Sys, id: nat, p: Packet, n: Sys)
    requires CallInv(s) && id in s.feeds && n.calls == s.calls + [(id, p)]
    requires n.feeds == s.feeds[id := s.feeds[id].(packets := s.feeds[id].packets + [p])]
    ensures CallInv(n)
  {
    forall x <- n.feeds
      ensures FromCalls(n.calls, x, n.feeds[x])
    {
      OneCall(id, p, x);
      MoreCalls(s.calls, [(id, p)], x, s.feeds[x]);
    }
  }

  lemma StepKeepsCalls(s: Sys, action: Action)
    requires Runnable(s) && CallInv(s)
    ensures CallInv(Step(s, action))
  {
    var n := Step(s, action);
    if n.feeds == s.feeds && n.calls == s.calls {
    } else if action.CallNext? {
      CallKeepsCalls(s);
    } else {
      ReplayKeepsCalls(s, action.id, n);
    }
  }

  lemma {:induction false} ReachCalls(actions: seq<Action>)
    ensures CallInv(Reach(actions))
  {
    if actions != [] {
      ReachCalls(actions[..|actions| - 1]);
      StepKeepsCalls(Reach(actions[..|actions| - 1]), actions[|actions| - 1]);
    }
  }

  /** In every interleaving the calls of each consumer's video callback since its latest join or replay
      brought it an unbroken piece of the video that begins with exactly what the cache held at that
      moment: at the cached keyframe, or at the join itself when nothing was cached.  One that is still
      on the stream misses nothing up to the packet in hand. */
  lemma {:induction false} GapFreeJoin(actions: seq<Action>, id: nat)
    requires id in Reach(actions).feeds
    ensures
      var s := Reach(actions);
      var feed := s.feeds[id];
      && Unbroken(s, feed)
      && feed.joined == |LatestJoin(actions, id).history| && |LatestJoin(actions, id).calls| <= |s.calls|
      && feed.packets == Received(s.calls[|LatestJoin(actions, id).calls|..], id)
      && feed.start == feed.joined - |CacheAfter(s.history[..feed.joined]).packets|
      && CacheAfter(s.history[..feed.joined]).packets <= feed.packets
      && (id in s.list && s.lock.Free? ==> feed.packets == s.history[feed.start..])
  {
    var s := Reach(actions);
    assert Unbroken(s, s.feeds[id]);
    ReachOrigin(actions);
    assert FromCache(s.history, s.feeds[id]);
    CachedFirst(s.history, s.feeds[id], s);
    JoinedAtLatest(actions, id);
    ReachCalls(actions);
    assert FromCalls(s.calls, id, s.feeds[id]);
  }

  lemma CachedFirst(history: seq<Packet>, feed: Feed, s: Sys)
    requires history == s.history && Unbroken(s, feed) && FromCache(history, feed)
    ensures CacheAfter(history[..feed.joined]).packets <= feed.packets
  {
    CacheIsRecentVideo(history[..feed.joined]);
    SegmentStarts(history, feed.start, feed.joined, |feed.packets|, CacheAfter(history[..feed.joined]).packets);
  }

  lemma SegmentStarts(history: seq<Packet>, start: nat, joined: nat, size: nat, cached: seq<Packet>)
    requires start <= joined <= start + size <= |history| && start + |cached| == joined
    requires history[..joined][joined - |cached|..] == cached
    ensures cached <= history[start..start + size]
  {
    var packets := history[start..start + size];
    forall i | 0 <= i < |cached|
      ensures packets[i] == cached[i]
    {
      assert cached[i] == history[..joined][start + i];
    }
    assert packets[..|cached|] == cached;
  }

  /** A list that is closed only shrinks, and the last consumer out closes it. */
  lemma ClosedListShrinks(s: Sys, action: Action)
    requires Inv(s) && Runnable(s)
    ensures var n := Step(s, action);
            && (s.closed ==> n.closed && forall id <- n.list :: id in s.list)
            && (s.list != [] && n.list == [] ==> n.closed)
  {
    match action
    case Remove(id) => if id in s.list { DropKeeps(s.list, id); }
    case _ =>
  }
}
