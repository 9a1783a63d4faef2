/** The three views of one fan-out: a Go slice of consumers (`Fanout`), a list of their ids
    (`FanoutDelivery`), and a set of them (`StreamProtocol`). */
module FanViews {
  import F = Fanout
  import D = FanoutDelivery
  import P = StreamProtocol

  function Ids(list: seq<F.Consumer>): seq<nat> {
    seq(|list|, i requires 0 <= i < |list| => list[i].id)
  }

  predicate Distinct(ids: seq<nat>) {
    ids == [] || (ids[0] !in ids[1..] && Distinct(ids[1..]))
  }

  function SetOf(ids: seq<nat>): set<nat> {
    set id | id in ids
  }

  /** The fan-out as the stream protocol sees it. */
  function View(list: seq<F.Consumer>, closed: bool): P.Fan {
    P.Fan(SetOf(Ids(list)), closed)
  }

  /** Cutting the first consumer of an id out of the slice drops the id from the list. */
  lemma {:induction false} WithoutDropsId(list: seq<F.Consumer>, id: nat)
    ensures Ids(F.Without(list, id)) == D.Drop(Ids(list), id)
    ensures F.Has(list, id) <==> id in Ids(list)
  {
    if list != [] {
      WithoutDropsId(list[1..], id);
      WithoutFirst(list, id);
      IdsOfFirst(list[0], list[1..]);
      IdsOfFirst(list[0], F.Without(list[1..], id));
      assert list == [list[0]] + list[1..];
    }
  }

  lemma IdsOfFirst(first: F.Consumer, rest: seq<F.Consumer>)
    ensures Ids([first] + rest) == [first.id] + Ids(rest)
    ensures Ids([first] + rest)[0] == first.id && Ids([first] + rest)[1..] == Ids(rest)
  {
  }

  lemma WithoutFirst(list: seq<F.Consumer>, id: nat)
    requires list != []
    ensures F.Has(list, id) <==> list[0].id == id || F.Has(list[1..], id)
    ensures F.Without(list, id) == if list[0].id == id then list[1..] else [list[0]] + F.Without(list[1..], id)
  {
  }

  lemma {:induction false} DropRemoves(ids: seq<nat>, id: nat)
    requires Distinct(ids)
    ensures Distinct(D.Drop(ids, id)) && SetOf(D.Drop(ids, id)) == SetOf(ids) - {id}
  {
    if ids != [] {
      var first, rest := ids[0], ids[1..];
      SetOfFirst(first, rest);
      assert ids == [first] + rest;
      DropRemoves(rest, id);
      var left := D.Drop(rest, id);
      if first != id {
        SetOfFirst(first, left);
        assert first !in SetOf(left);
        assert D.Drop(ids, id) == [first] + left && ([first] + left)[1..] == left;
      } else {
        assert id !in SetOf(rest);
      }
    }
  }

  lemma SetOfFirst(first: nat, rest: seq<nat>)
    ensures SetOf([first] + rest) == {first} + SetOf(rest)
  {
  }

  lemma {:induction false} AppendedIsDistinct(ids: seq<nat>, id: nat)
    requires Distinct(ids) && id !in ids
    ensures Distinct(ids + [id]) && SetOf(ids + [id]) == SetOf(ids) + {id}
  {
    if ids != [] {
      AppendedIsDistinct(ids[1..], id);
      assert (ids + [id])[1..] == ids[1..] + [id];
    } else {
      assert [] + [id] == [id];
    }
  }

  /** Removing a consumer from the slice is the protocol's removal, closing included. */
  lemma RemoveIsWithoutConsumer(list: seq<F.Consumer>, closed: bool, id: nat)
    requires Distinct(Ids(list)) && F.Has(list, id)
    ensures
      var left := F.Without(list, id);
      && View(left, closed || left == []) == P.WithoutConsumer(View(list, closed), id)
      && Distinct(Ids(left))
  {
    WithoutDropsId(list, id);
    DropRemoves(Ids(list), id);
    var left := F.Without(list, id);
    assert left == [] <==> SetOf(Ids(left)) == {} by {
      if left != [] {
        assert Ids(left)[0] in SetOf(Ids(left));
      }
    }
  }

  /** Appending a new consumer to the slice is the protocol's join. */
  lemma AddIsWithConsumer(fans: map<nat, P.Fan>, l: nat, list: seq<F.Consumer>, closed: bool, c: F.Consumer)
    requires l in fans && fans[l] == View(list, closed) && Distinct(Ids(list)) && !F.Has(list, c.id)
    ensures P.WithConsumer(fans, l, c.id) == fans[l := View(list + [c], closed)] && Distinct(Ids(list + [c]))
  {
    WithoutDropsId(list, c.id);
    AppendedIsDistinct(Ids(list), c.id);
    assert Ids(list + [c]) == Ids(list) + [c.id];
  }

  // ----- Deliveries -----

  /** The consumers that take video, in list order. */
  function VideoIds(list: seq<F.Consumer>): seq<nat> {
    if list == [] then [] else (if list[0].video then [list[0].id] else []) + VideoIds(list[1..])
  }

  lemma {:induction false} DeliveriesConcat(a: seq<F.Consumer>, b: seq<F.Consumer>, p: F.Packet)
    ensures F.Deliveries(a + b, p) == F.Deliveries(a, p) + F.Deliveries(b, p)
  {
    if b == [] {
      assert a + b == a;
    } else {
      assert (a + b)[..|a + b| - 1] == a + b[..|b| - 1];
      DeliveriesConcat(a, b[..|b| - 1], p);
    }
  }

  lemma OneDelivery(c: F.Consumer, p: F.Packet)
    ensures F.Deliveries([c], p) == if c.video then [(c.id, p)] else []
  {
    assert [c][..0] == [];
  }

  /** A packet is handed to exactly the consumers that take video, once each and in list order. */
  lemma {:induction false} VideoReachesEveryTaker(list: seq<F.Consumer>, p: F.Packet)
    ensures |F.Deliveries(list, p)| == |VideoIds(list)|
    ensures forall i | 0 <= i < |VideoIds(list)| :: F.Deliveries(list, p)[i] == (VideoIds(list)[i], p)
  {
    if list != [] {
      assert list == [list[0]] + list[1..];
      DeliveriesConcat([list[0]], list[1..], p);
      OneDelivery(list[0], p);
      VideoReachesEveryTaker(list[1..], p);
    }
  }

  /** What it brings one consumer: the packet once if it is on the list and takes video, else nothing. */
  lemma {:induction false} VideoBringsOnce(list: seq<F.Consumer>, p: F.Packet, id: nat)
    requires Distinct(Ids(list))
    ensures D.Received(F.Deliveries(list, p), id) == if F.Consumer(id, true) in list then [p] else []
  {
    if list != [] {
      var first, rest := list[0], list[1..];
      assert list == [first] + rest;
      IdsOfFirst(first, rest);
      DeliveriesConcat([first], rest, p);
      OneDelivery(first, p);
      D.ReceivedConcat(F.Deliveries([first], p), F.Deliveries(rest, p), id);
      D.OneCall(first.id, p, id);
      VideoBringsOnce(rest, p, id);
      ListedOnce(first.id, rest);
    }
  }

  lemma ListedOnce(id: nat, rest: seq<F.Consumer>)
    requires id !in Ids(rest)
    ensures F.Consumer(id, true) !in rest
  {
    forall i | 0 <= i < |rest|
      ensures rest[i].id != id
    {
      assert Ids(rest)[i] in Ids(rest);
    }
  }

  // ----- A delivery of the interleaved system is one call of Video -----

  ghost predicate Matches(s: D.Sys, list: seq<F.Consumer>) {
    && D.Runnable(s) && s.lock.Free? && s.list == Ids(list)
    && forall i | 0 <= i < |list| :: (list[i].video <==> list[i].id !in s.deaf) && (list[i].video ==> list[i].id in s.feeds)
  }

  lemma NextIsRunnable(s: D.Sys)
    requires D.Runnable(s) && s.lock.Delivering?
    ensures D.Runnable(D.Step(s, D.CallNext))
  {
  }

  /** The calls of a delivery one after the other, with nothing in between. */
  function CallAll(s: D.Sys): D.Sys
    requires D.Runnable(s) && s.lock.Delivering?
    decreases |s.lock.rest|
  {
    NextIsRunnable(s);
    var n := D.Step(s, D.CallNext);
    if s.lock.rest == [] then n else CallAll(n)
  }

  lemma {:induction false} CallAllDelivers(s: D.Sys, list: seq<F.Consumer>, p: F.Packet)
    requires D.Runnable(s) && s.lock == D.Delivering(Ids(list)) && s.history != [] && s.history[|s.history| - 1] == p
    requires forall i | 0 <= i < |list| :: (list[i].video <==> list[i].id !in s.deaf)
    ensures
      var n := CallAll(s);
      n.calls == s.calls + F.Deliveries(list, p) && n.lock.Free? && n.list == s.list && n.cache == s.cache
    decreases |list|
  {
    if list != [] {
      var first, rest, n := list[0], list[1..], D.Step(s, D.CallNext);
      NextIsRunnable(s);
      assert list == [first] + rest;
      IdsOfFirst(first, rest);
      assert Ids(list)[0] == first.id && Ids(list)[1..] == Ids(rest);
      CallAllDelivers(n, rest, p);
      DeliveriesConcat([first], rest, p);
      OneDelivery(first, p);
      assert n.calls == s.calls + F.Deliveries([first], p);
    }
  }

  /** Left to itself, a packet of the interleaved system makes exactly the calls of `Video`, in its
      order, and leaves the same cache and list behind. */
  lemma VideoIsOneDelivery(s: D.Sys, list: seq<F.Consumer>, p: F.Packet)
    requires Matches(s, list)
    ensures
      var b := D.Step(s, D.BeginVideo(p));
      && D.Runnable(b) && b.lock.Delivering?
      && CallAll(b).calls == s.calls + F.Deliveries(list, p) && CallAll(b).lock.Free?
      && CallAll(b).cache == F.Remember(s.cache, p) && CallAll(b).list == Ids(list)
  {
    var b := D.Step(s, D.BeginVideo(p));
    assert b.history[|b.history| - 1] == p;
    forall id <- b.lock.rest
      ensures id in b.feeds || id in b.deaf
    {
      var i :| 0 <= i < |list| && Ids(list)[i] == id;
      assert list[i].id == id;
    }
    CacheWithin(s.cache, p);
    CallAllDelivers(b, list, p);
  }

  lemma CacheWithin(c: F.Cache, p: F.Packet)
    ensures |F.Remember(c, p).packets| <= |c.packets| + 1
  {
  }

  /** A join of the interleaved system makes exactly the calls of `Add`, and lists the same consumer. */
  lemma JoinIsAdd(s: D.Sys, list: seq<F.Consumer>, id: nat, video: bool)
    requires Matches(s, list) && !s.closed && id !in s.feeds && id !in s.deaf
    ensures
      var j := D.Step(s, D.BeginJoin(id, video));
      && D.Runnable(j) && j.lock == D.Joining(id)
      && j.calls == s.calls + (if video then F.Replays(id, s.cache.packets) else [])
      && D.Step(j, D.EndJoin).list == Ids(list + [F.Consumer(id, video)])
  {
    assert Ids(list + [F.Consumer(id, video)]) == Ids(list) + [id];
  }
}
