/** A stable sort by a "comes before" test, as Go's sort.SliceStable: the sorting library itself is
    outside the repository, so this is what it promises, and that the promise can be kept. */
module StableSort {

  /** `before` ranks the elements satisfying `p`: a strict weak order. */
  ghost predicate Ranks<T(!new)>(before: (T, T) -> bool, p: T -> bool) {
    forall x, y | p(x) && p(y) && before(x, y) ::
      !before(y, x) && forall z | p(z) :: before(x, z) || before(z, y)
  }

  ghost predicate Every<T>(p: T -> bool, list: seq<T>) {
    forall i | 0 <= i < |list| :: p(list[i])
  }

  ghost predicate Sorted<T>(before: (T, T) -> bool, list: seq<T>) {
    forall i, j | 0 <= i < j < |list| :: !before(list[j], list[i])
  }

  function Where<T>(list: seq<T>, p: T -> bool): seq<T> {
    if list == [] then []
    else Where(list[..|list| - 1], p) + (if p(list[|list| - 1]) then [list[|list| - 1]] else [])
  }

  /** The elements that neither come before `x` nor after it. */
  function Peers<T>(before: (T, T) -> bool, x: T, list: seq<T>): seq<T> {
    Where(list, y => !before(x, y) && !before(y, x))
  }

  /** A sorted rearrangement in which elements of equal rank keep their order. */
  ghost predicate StablySorted<T(!new)>(before: (T, T) -> bool, p: T -> bool, list: seq<T>, sorted: seq<T>) {
    && Sorted(before, sorted) && Every(p, sorted)
    && multiset(sorted) == multiset(list)
    && forall x | p(x) :: Peers(before, x, sorted) == Peers(before, x, list)
  }

  lemma {:induction false} WhereConcat<T>(a: seq<T>, b: seq<T>, p: T -> bool)
    ensures Where(a + b, p) == Where(a, p) + Where(b, p)
  {
    if b == [] {
      assert a + b == a;
    } else {
      assert (a + b)[..|a + b| - 1] == a + b[..|b| - 1];
      WhereConcat(a, b[..|b| - 1], p);
    }
  }

  lemma {:induction false} WhereNone<T>(list: seq<T>, p: T -> bool)
    requires forall k | 0 <= k < |list| :: !p(list[k])
    ensures Where(list, p) == []
  {
    if list != [] {
      WhereNone(list[..|list| - 1], p);
    }
  }

  lemma RankBetween<T(!new)>(before: (T, T) -> bool, p: T -> bool, x: T, y: T, z: T)
    requires Ranks(before, p) && p(x) && p(y) && p(z)
    ensures before(x, y) ==> before(x, z) || before(z, y)
  {
  }

  lemma InsertedIsSorted<T(!new)>(before: (T, T) -> bool, p: T -> bool, list: seq<T>, m: T, i: nat)
    requires Ranks(before, p) && Sorted(before, list) && Every(p, list) && p(m) && i <= |list|
    requires forall k | i <= k < |list| :: before(m, list[k])
    requires i > 0 ==> !before(m, list[i - 1])
    ensures Sorted(before, list[..i] + [m] + list[i..])
  {
    if i > 0 {
      var last := list[i - 1];
      forall k | 0 <= k < i
        ensures !before(m, list[k])
      {
        RankBetween(before, p, m, list[k], last);
      }
    }
  }

  lemma InsertedKeepsPeers<T(!new)>(before: (T, T) -> bool, p: T -> bool, list: seq<T>, m: T, i: nat, x: T)
    requires Ranks(before, p) && Every(p, list) && p(m) && p(x) && i <= |list|
    requires forall k | i <= k < |list| :: before(m, list[k])
    ensures Peers(before, x, list[..i] + [m] + list[i..]) == Peers(before, x, list + [m])
  {
    var peer := y => !before(x, y) && !before(y, x);
    assert list == list[..i] + list[i..];
    WhereConcat(list[..i] + [m], list[i..], peer);
    WhereConcat(list[..i], [m], peer);
    WhereConcat(list, [m], peer);
    WhereConcat(list[..i], list[i..], peer);
    if peer(m) {
      forall k | i <= k < |list|
        ensures !peer(list[k])
      {
        assert before(m, x) || before(x, list[k]);
      }
      WhereNone(list[i..], peer);
    } else {
      assert Where([m], peer) == [];
    }
  }

  method Sort<T(!new)>(before: (T, T) -> bool, ghost p: T -> bool, list: seq<T>) returns (sorted: seq<T>)
    requires Ranks(before, p) && Every(p, list)
    ensures StablySorted(before, p, list, sorted)
  {
    sorted := [];
    for n := 0 to |list|
      invariant StablySorted(before, p, list[..n], sorted)
    {
      var i := |sorted|;
      while i > 0 && before(list[n], sorted[i - 1])
        invariant 0 <= i <= |sorted|
        invariant forall k | i <= k < |sorted| :: before(list[n], sorted[k])
      {
        i := i - 1;
      }
      InsertStep(before, p, list, n, sorted, i);
      sorted := sorted[..i] + [list[n]] + sorted[i..];
    }
    assert list[..|list|] == list;
  }

  lemma InsertStep<T(!new)>(before: (T, T) -> bool, p: T -> bool, list: seq<T>, n: nat, sorted: seq<T>, i: nat)
    requires Ranks(before, p) && Every(p, list) && n < |list| && i <= |sorted|
    requires StablySorted(before, p, list[..n], sorted)
    requires forall k | i <= k < |sorted| :: before(list[n], sorted[k])
    requires i > 0 ==> !before(list[n], sorted[i - 1])
    ensures StablySorted(before, p, list[..n + 1], sorted[..i] + [list[n]] + sorted[i..])
  {
    var m, longer := list[n], sorted[..i] + [list[n]] + sorted[i..];
    assert list[..n + 1] == list[..n] + [m];
    InsertedElements(p, sorted, m, i);
    assert multiset(longer) == multiset(list[..n + 1]);
    InsertedIsSorted(before, p, sorted, m, i);
    forall x | p(x)
      ensures Peers(before, x, longer) == Peers(before, x, list[..n + 1])
    {
      PeersStep(before, p, list[..n], m, sorted, i, x);
    }
  }

  lemma InsertedElements<T>(p: T -> bool, list: seq<T>, m: T, i: nat)
    requires Every(p, list) && p(m) && i <= |list|
    ensures Every(p, list[..i] + [m] + list[i..])
    ensures multiset(list[..i] + [m] + list[i..]) == multiset(list) + multiset([m])
  {
    assert list == list[..i] + list[i..];
  }

  lemma PeersStep<T(!new)>(before: (T, T) -> bool, p: T -> bool, list: seq<T>, m: T, sorted: seq<T>, i: nat, x: T)
    requires Ranks(before, p) && Every(p, sorted) && p(m) && p(x) && i <= |sorted|
    requires forall k | i <= k < |sorted| :: before(m, sorted[k])
    requires Peers(before, x, sorted) == Peers(before, x, list)
    ensures Peers(before, x, sorted[..i] + [m] + sorted[i..]) == Peers(before, x, list + [m])
  {
    InsertedKeepsPeers(before, p, sorted, m, i, x);
    WhereConcat(sorted, [m], y => !before(x, y) && !before(y, x));
    WhereConcat(list, [m], y => !before(x, y) && !before(y, x));
  }
}
