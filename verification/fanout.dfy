/** One stream's fan-out to its consumers (internal/media/fanout.go).

    The consumer list is a Go slice: a backing array, a length and a capacity, so that whether
    `append` writes in place is explicit.  `issued` remembers every list `snapshot` ever returned;
    `Valid` says none of them has changed. */
module Fanout {
  import K = Keyframe

  datatype Packet = Packet(timestamp: nat, payload: seq<K.byte>)

  /** A consumer; `video` says whether it takes video packets at all. */
  datatype Consumer = Consumer(id: nat, video: bool)

  const CACHE_LIMIT: nat := 512 * 1024

  // ----- The keyframe cache -----

  datatype Cache = Cache(packets: seq<Packet>, bytes: nat)

  const EMPTY := Cache([], 0)

  function PayloadBytes(packets: seq<Packet>): nat {
    if packets == [] then 0
    else PayloadBytes(packets[..|packets| - 1]) + |packets[|packets| - 1].payload|
  }

  /** A keyframe start that does not continue the access unit at the head of the cache. */
  predicate Restarts(c: Cache, p: Packet) {
    K.Starts(p.payload) && (c.packets == [] || c.packets[0].timestamp != p.timestamp)
  }

  function Remember(c: Cache, p: Packet): Cache {
    var kept := if Restarts(c, p) then EMPTY else c;
    if kept.packets == [] && !K.Starts(p.payload) then kept
    else if kept.bytes + |p.payload| > CACHE_LIMIT then EMPTY
    else Cache(kept.packets + [p], kept.bytes + |p.payload|)
  }

  function RememberAll(c: Cache, history: seq<Packet>): Cache {
    if history == [] then c
    else Remember(RememberAll(c, history[..|history| - 1]), history[|history| - 1])
  }

  ghost predicate Suffix(packets: seq<Packet>, history: seq<Packet>) {
    |packets| <= |history| && history[|history| - |packets|..] == packets
  }

  /** A bounded run of the latest video that begins at a keyframe and never runs into the next. */
  ghost predicate CacheValid(c: Cache) {
    && c.bytes == PayloadBytes(c.packets) && c.bytes <= CACHE_LIMIT
    && (c.packets != [] ==> K.Starts(c.packets[0].payload))
    && (forall i | 0 <= i < |c.packets| && K.Starts(c.packets[i].payload) ::
          c.packets[i].timestamp == c.packets[0].timestamp)
  }

  lemma AppendKeepsCache(kept: Cache, p: Packet)
    requires CacheValid(kept) && kept.bytes + |p.payload| <= CACHE_LIMIT
    requires kept.packets == [] ==> K.Starts(p.payload)
    requires kept.packets != [] && K.Starts(p.payload) ==> p.timestamp == kept.packets[0].timestamp
    ensures CacheValid(Cache(kept.packets + [p], kept.bytes + |p.payload|))
  {
    var packets := kept.packets + [p];
    assert packets[..|packets| - 1] == kept.packets;
    forall i | 0 <= i < |packets| && K.Starts(packets[i].payload)
      ensures packets[i].timestamp == packets[0].timestamp
    {
      assert i < |kept.packets| ==> packets[i] == kept.packets[i];
    }
  }

  lemma AppendKeepsSuffix(packets: seq<Packet>, p: Packet, history: seq<Packet>)
    requires Suffix(packets, history)
    ensures Suffix(packets + [p], history + [p]) && Suffix([p], history + [p]) && Suffix([], history + [p])
  {
    assert (history + [p])[|history| - |packets|..] == packets + [p];
  }

  lemma RememberKeepsCache(c: Cache, p: Packet, history: seq<Packet>)
    requires CacheValid(c) && Suffix(c.packets, history)
    ensures CacheValid(Remember(c, p)) && Suffix(Remember(c, p).packets, history + [p])
  {
    var kept := if Restarts(c, p) then EMPTY else c;
    AppendKeepsSuffix(c.packets, p, history);
    assert [] + [p] == [p];
    if (kept.packets != [] || K.Starts(p.payload)) && kept.bytes + |p.payload| <= CACHE_LIMIT {
      AppendKeepsCache(kept, p);
    }
  }

  /** Over any video history the cache is a bounded suffix of it that starts at its last keyframe. */
  lemma {:induction false} CacheIsRecentVideo(history: seq<Packet>)
    ensures CacheValid(RememberAll(EMPTY, history)) && Suffix(RememberAll(EMPTY, history).packets, history)
  {
    if history != [] {
      var before, p := history[..|history| - 1], history[|history| - 1];
      CacheIsRecentVideo(before);
      RememberKeepsCache(RememberAll(EMPTY, before), p, before);
      assert before + [p] == history;
    }
  }

  /** And it is not smaller than it need be: from a fresh keyframe on, as long as no later keyframe
      starts and the limit holds, the cache is everything received since. */
  lemma {:induction false} CacheHoldsWholeGroup(c: Cache, group: seq<Packet>)
    requires CacheValid(c) && group != [] && Restarts(c, group[0])
    requires forall i | 0 <= i < |group| && K.Starts(group[i].payload) :: group[i].timestamp == group[0].timestamp
    requires forall k | 0 <= k <= |group| :: PayloadBytes(group[..k]) <= CACHE_LIMIT
    ensures RememberAll(c, group) == Cache(group, PayloadBytes(group))
  {
    var before, p := group[..|group| - 1], group[|group| - 1];
    assert group[..|group|] == group;
    if before == [] {
      assert group == [p] && RememberAll(c, before) == c;
    } else {
      forall k | 0 <= k <= |before|
        ensures PayloadBytes(before[..k]) <= CACHE_LIMIT
      {
        assert before[..k] == group[..k];
      }
      forall i | 0 <= i < |before| && K.Starts(before[i].payload)
        ensures before[i].timestamp == before[0].timestamp
      {
        assert before[i] == group[i];
      }
      CacheHoldsWholeGroup(c, before);
      GroupGrows(before, p, group);
    }
  }

  lemma GroupGrows(before: seq<Packet>, p: Packet, group: seq<Packet>)
    requires before != [] && group == before + [p] && PayloadBytes(group) <= CACHE_LIMIT
    requires K.Starts(p.payload) ==> p.timestamp == before[0].timestamp
    ensures Remember(Cache(before, PayloadBytes(before)), p) == Cache(group, PayloadBytes(group))
  {
    assert group[..|group| - 1] == before;
  }

  // ----- Go slices -----

  datatype Slice = Slice(arr: array<Consumer>, len: nat, cap: nat)

  /** A list `snapshot` returned, with what it contained at the time. */
  datatype Issued = Issued(arr: array<Consumer>, len: nat, contents: seq<Consumer>)

  function IndexOf(list: seq<Consumer>, id: nat): (i: nat)
    ensures i <= |list|
    ensures i < |list| ==> list[i].id == id
    ensures forall k | 0 <= k < i :: list[k].id != id
  {
    if list == [] then 0 else if list[0].id == id then 0 else 1 + IndexOf(list[1..], id)
  }

  predicate Has(list: seq<Consumer>, id: nat) {
    IndexOf(list, id) < |list|
  }

  function Without(list: seq<Consumer>, id: nat): seq<Consumer> {
    var i := IndexOf(list, id);
    if i == |list| then list else list[..i] + list[i + 1..]
  }

  /** The calls one packet makes: one per consumer of the list that takes video. */
  function Deliveries(list: seq<Consumer>, p: Packet): seq<(nat, Packet)> {
    if list == [] then []
    else Deliveries(list[..|list| - 1], p)
         + (if list[|list| - 1].video then [(list[|list| - 1].id, p)] else [])
  }

  /** The calls a replay makes to one consumer. */
  function Replays(id: nat, packets: seq<Packet>): seq<(nat, Packet)> {
    seq(|packets|, i requires 0 <= i < |packets| => (id, packets[i]))
  }

  class Fanout {
    var cache: seq<Packet>
    var cacheBytes: nat
    var consumers: Slice
    var closed: bool
    /** The VideoRTP callbacks run so far, in order. */
    ghost var calls: seq<(nat, Packet)>
    ghost var issued: seq<Issued>
    ghost var arrays: set<array<Consumer>>

    ghost predicate Valid()
      reads this, arrays
    {
      && consumers.arr in arrays
      && consumers.len <= consumers.cap <= consumers.arr.Length
      && (forall k | 0 <= k < |issued| ::
            && issued[k].arr in arrays && issued[k].len <= issued[k].arr.Length
            && issued[k].arr[..issued[k].len] == issued[k].contents
            // An append in place can only reach past a list issued from the same array.
            && (issued[k].arr == consumers.arr ==> issued[k].len <= consumers.len || consumers.len == consumers.cap))
    }

    ghost function List(): seq<Consumer>
      requires Valid()
      reads this, arrays
    {
      consumers.arr[..consumers.len]
    }

    ghost function CacheView(): Cache
      reads this
    {
      Cache(cache, cacheBytes)
    }

    constructor ()
      ensures Valid() && fresh(arrays) && List() == [] && CacheView() == EMPTY && !closed
      ensures issued == [] && calls == []
    {
      var none := new Consumer[0];
      cache, cacheBytes, closed := [], 0, false;
      consumers := Slice(none, 0, 0);
      calls, issued, arrays := [], [], {none};
    }

    /** Go's append of one element to the consumer list; `growth` is the spare capacity the runtime
        chooses when it has to allocate. */
    method AppendConsumer(c: Consumer, growth: nat)
      requires Valid()
      modifies this`consumers, this`arrays, consumers.arr
      ensures Valid() && fresh(arrays - old(arrays)) && issued == old(issued)
      ensures List() == old(List()) + [c]
    {
      if consumers.len < consumers.cap {
        consumers.arr[consumers.len] := c;
        consumers := consumers.(len := consumers.len + 1);
      } else {
        var grown := new Consumer[consumers.len + 1 + growth](_ => c);
        for i := 0 to consumers.len
          invariant fresh(grown) && grown.Length == consumers.len + 1 + growth
          invariant consumers == old(consumers) && arrays == old(arrays) && Valid()
          invariant grown[..i] == consumers.arr[..i]
          invariant forall k | i <= k < grown.Length :: grown[k] == c
          invariant old(consumers.arr[..consumers.len]) == consumers.arr[..consumers.len]
        {
          grown[i] := consumers.arr[i];
        }
        consumers := Slice(grown, consumers.len + 1, grown.Length);
        arrays := arrays + {grown};
      }
    }

    /** Replays the cached keyframe, then joins the consumer; `raced` says the stream stopped
        between the two. */
    method Add(id: nat, video: bool, growth: nat, raced: bool) returns (added: bool)
      requires Valid()
      modifies this, consumers.arr
      ensures Valid() && fresh(arrays - old(arrays)) && issued == old(issued)
      ensures CacheView() == old(CacheView()) && closed == (old(closed) || raced)
      ensures added <==> !closed
      ensures List() == old(List()) + (if added then [Consumer(id, video)] else [])
      ensures calls == old(calls) + (if old(closed) || !video then [] else Replays(id, cache))
    {
      if closed {
        closed := closed || raced;
        return false;
      }
      if video {
        ReplayTo(id);
      }
      closed := closed || raced;
      if closed { return false; }
      AppendConsumer(Consumer(id, video), growth);
      added := true;
    }

    method ReplayTo(id: nat)
      modifies this`calls
      ensures calls == old(calls) + Replays(id, cache)
    {
      for i := 0 to |cache|
        invariant calls == old(calls) + Replays(id, cache[..i])
      {
        assert Replays(id, cache[..i + 1]) == Replays(id, cache[..i]) + [(id, cache[i])];
        calls := calls + [(id, cache[i])];
      }
      assert cache[..|cache|] == cache;
    }

    /** Sends the cached keyframe again to one consumer on the list. */
    method Replay(id: nat)
      requires Valid()
      modifies this`calls
      ensures Valid() && List() == old(List())
      ensures var i := IndexOf(List(), id);
              calls == old(calls) + (if i < |List()| && List()[i].video then Replays(id, cache) else [])
    {
      for i := 0 to consumers.len
        invariant Valid() && List() == old(List()) && calls == old(calls)
        invariant forall k | 0 <= k < i :: List()[k].id != id
      {
        if consumers.arr[i].id == id {
          assert List()[i].id == id;
          if consumers.arr[i].video {
            ReplayTo(id);
          }
          return;
        }
      }
    }

    /** Detaches a consumer into a fresh backing array; the last one out closes the fan-out. */
    method Remove(id: nat, growth: nat) returns (remaining: nat, found: bool)
      requires Valid()
      modifies this`consumers, this`arrays, this`closed
      ensures Valid() && fresh(arrays - old(arrays)) && issued == old(issued)
      ensures List() == Without(old(List()), id) && remaining == |List()|
      ensures found <==> Has(old(List()), id)
      ensures closed == (old(closed) || (found && List() == []))
    {
      ghost var list := List();
      for i := 0 to consumers.len
        invariant Valid() && List() == list && consumers == old(consumers)
        invariant arrays == old(arrays) && closed == old(closed) && issued == old(issued)
        invariant forall k | 0 <= k < i :: list[k].id != id
      {
        if consumers.arr[i].id == id {
          assert list[i].id == id;
          CutAt(i, growth);
          if consumers.len == 0 {
            closed := true;
          }
          return consumers.len, true;
        }
      }
      return consumers.len, false;
    }

    /** `append(consumers[:i:i], consumers[i+1:]...)`: the capped prefix leaves no room, so a
        nonempty tail is copied elsewhere, and an empty one leaves the prefix capped. */
    method CutAt(i: nat, growth: nat)
      requires Valid() && i < consumers.len
      modifies this`consumers, this`arrays
      ensures Valid() && fresh(arrays - old(arrays)) && issued == old(issued)
      ensures List() == old(List()[..i] + List()[i + 1..])
    {
      var tail := consumers.len - i - 1;
      if tail == 0 {
        consumers := Slice(consumers.arr, i, i);
      } else {
        var moved := new Consumer[i + tail + growth](_ => Consumer(0, false));
        forall k | 0 <= k < i { moved[k] := consumers.arr[k]; }
        forall k | 0 <= k < tail { moved[i + k] := consumers.arr[i + 1 + k]; }
        consumers := Slice(moved, i + tail, moved.Length);
        arrays := arrays + {moved};
        assert moved[..i + tail] == old(List())[..i] + old(List())[i + 1..];
      }
    }

    method Close()
      requires Valid()
      modifies this`closed
      ensures Valid() && closed && List() == old(List())
    {
      closed := true;
    }

    /** The current consumers, iterated without a lock. */
    method Snapshot() returns (list: Slice)
      requires Valid()
      modifies this`issued
      ensures Valid() && List() == old(List())
      ensures list == consumers
      ensures issued == old(issued) + [Issued(list.arr, list.len, List())]
    {
      list := consumers;
      issued := issued + [Issued(list.arr, list.len, List())];
    }

    method RememberPacket(p: Packet)
      modifies this`cache, this`cacheBytes
      ensures CacheView() == Remember(old(CacheView()), p)
    {
      var keyframe := K.StartsKeyframe(p.payload);
      if keyframe && (|cache| == 0 || cache[0].timestamp != p.timestamp) {
        cache, cacheBytes := [], 0;
      }
      if |cache| == 0 && !keyframe { return; }
      if cacheBytes + |p.payload| > CACHE_LIMIT {
        cache, cacheBytes := [], 0;
        return;
      }
      cache := cache + [p];
      cacheBytes := cacheBytes + |p.payload|;
    }

    /** Remembers a packet and delivers it to everyone on the list. */
    method Video(p: Packet)
      requires Valid()
      modifies this`cache, this`cacheBytes, this`issued, this`calls
      ensures Valid() && List() == old(List())
      ensures CacheView() == Remember(old(CacheView()), p) && old(issued) <= issued
      ensures calls == old(calls) + Deliveries(List(), p)
    {
      RememberPacket(p);
      var list := Snapshot();
      for i := 0 to list.len
        invariant Valid() && List() == old(List()) && list == consumers
        invariant CacheView() == Remember(old(CacheView()), p) && old(issued) <= issued
        invariant calls == old(calls) + Deliveries(List()[..i], p)
      {
        assert List()[..i + 1][..i] == List()[..i];
        if list.arr[i].video {
          calls := calls + [(list.arr[i].id, p)];
        }
      }
      assert List()[..list.len] == List();
    }

    /** Whatever happens to the stream afterwards, every list issued before reads as it did. */
    method Perform(changes: seq<Change>)
      requires Valid()
      modifies this, arrays
      ensures Valid() && fresh(arrays - old(arrays)) && old(issued) <= issued
      ensures forall k | 0 <= k < |old(issued)| ::
                old(issued[k].arr)[..old(issued[k].len)] == old(issued[k].arr[..issued[k].len])
    {
      for i := 0 to |changes|
        invariant Valid() && fresh(arrays - old(arrays)) && old(issued) <= issued
      {
        match changes[i]
        case Join(id, video, growth, raced) => var _ := Add(id, video, growth, raced);
        case Leave(id, growth) => var _, _ := Remove(id, growth);
        case Stop => Close();
        case Look => var _ := Snapshot();
        case Deliver(p) => Video(p);
        case Again(id) => Replay(id);
      }
      forall k | 0 <= k < |old(issued)|
        ensures old(issued[k].arr)[..old(issued[k].len)] == old(issued[k].arr[..issued[k].len])
      {
        assert issued[k] == old(issued)[k];
      }
    }
  }

  datatype Change =
    | Join(id: nat, video: bool, growth: nat, raced: bool)
    | Leave(id: nat, growth: nat)
    | Stop
    | Look
    | Deliver(packet: Packet)
    | Again(id: nat)
}
