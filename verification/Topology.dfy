/** Peer distance on the byte ring, and lists kept nearest first. */
module Topology {
  import opened Options
  import opened OrderedList

  type Byte = x: nat | x < 256

  const KEY_LEN: nat := 16

  type Key = s: seq<Byte> | |s| == KEY_LEN witness seq(KEY_LEN, _ => 0)

  function ByteDistance(dst: Byte, src: Byte): nat {
    var d := if dst > src then dst - src else if dst < src then src - dst else 0;
    if d > 128 then 128 - (d - 128) else d
  }

  function Min(a: int, b: int): int { if a < b then a else b }

  /** The distance is the shorter way around a ring of 256: symmetric, zero only on itself, at
      most half way, and never longer than a detour. */
  lemma DistanceIsRing(a: Byte, b: Byte, c: Byte)
    ensures ByteDistance(a, b) == Min((a - b) % 256, (b - a) % 256) == ByteDistance(b, a) <= 128
    ensures ByteDistance(a, b) == 0 <==> a == b
    ensures ByteDistance(a, c) <= ByteDistance(a, b) + ByteDistance(b, c)
  {
  }

  /** 1 if `left` is closer to `c` than `right` from byte `i` on, -1 if farther, 0 if level. */
  function CompareFrom(c: Key, left: Key, right: Key, i: nat): int
    requires i <= KEY_LEN
    decreases KEY_LEN - i
  {
    if i == KEY_LEN then 0
    else
      var l, r := ByteDistance(c[i], left[i]), ByteDistance(c[i], right[i]);
      if l < r then 1 else if l > r then -1 else CompareFrom(c, left, right, i + 1)
  }

  function Compare(c: Key, left: Key, right: Key): int { CompareFrom(c, left, right, 0) }

  method CompareTopology(c: Key, left: Key, right: Key) returns (r: int)
    ensures r == Compare(c, left, right)
  {
    for i := 0 to KEY_LEN
      invariant CompareFrom(c, left, right, i) == Compare(c, left, right)
    {
      var d1, d2 := ByteDistance(c[i], left[i]), ByteDistance(c[i], right[i]);
      if d1 < d2 {
        return 1;
      } else if d1 > d2 {
        return -1;
      }
    }
    r := 0;
  }

  lemma CompareFlips(c: Key, a: Key, b: Key, i: nat)
    requires i <= KEY_LEN
    ensures CompareFrom(c, a, b, i) == -CompareFrom(c, b, a, i) && -1 <= CompareFrom(c, a, b, i) <= 1
    decreases KEY_LEN - i
  {
    if i < KEY_LEN { CompareFlips(c, a, b, i + 1); }
  }

  lemma CompareTransitive(c: Key, x: Key, y: Key, z: Key, i: nat)
    requires i <= KEY_LEN && CompareFrom(c, x, y, i) != 1 && CompareFrom(c, y, z, i) != 1
    ensures CompareFrom(c, x, z, i) != 1
    decreases KEY_LEN - i
  {
    if i < KEY_LEN && ByteDistance(c[i], x[i]) == ByteDistance(c[i], y[i]) == ByteDistance(c[i], z[i]) {
      CompareTransitive(c, x, y, z, i + 1);
    }
  }

  /** A connection: `id` is unique to the connection, `key` identifies the node. */
  datatype Peer = Peer(id: nat, key: Key)

  function Nearer(my: Key): (Peer, Peer) -> bool {
    (a: Peer, b: Peer) => Compare(my, a.key, b.key) == 1
  }

  /** Distance orders peers up to ties. */
  lemma NearerIsOrder(my: Key)
    ensures WeakOrder(Nearer(my))
  {
    var before := Nearer(my);
    forall a, b | before(a, b) ensures !before(b, a) {
      CompareFlips(my, a.key, b.key, 0);
    }
    forall a, b, c | !before(a, b) && !before(b, c) ensures !before(a, c) {
      CompareTransitive(my, a.key, b.key, c.key, 0);
    }
  }

  /** `insert_ordered`: the loop compares keys; the farthest peer falls off a full list. */
  method InsertOrdered(list: seq<Peer>, max: nat, my: Key, item: Peer) returns (r: seq<Peer>, dropped: Option<Peer>)
    ensures r == Bounded(list, max, item, Nearer(my)) && dropped == Dropped(list, max, item, Nearer(my))
  {
    var idx := |list|;
    var i := 0;
    while i < |list|
      invariant 0 <= i <= |list| && idx == |list| && forall k :: 0 <= k < i ==> Compare(my, item.key, list[k].key) != 1
    {
      var cmp := CompareTopology(my, item.key, list[i].key);
      if cmp == 1 {
        idx := i;
        break;
      }
      i := i + 1;
    }
    PositionIs(list, item, Nearer(my), idx);
    r := list[..idx] + [item] + list[idx..];
    dropped := None;
    if |r| > max {
      r, dropped := r[..|r| - 1], Some(r[|r| - 1]);
    }
  }

  /** What falls off. */
  function Dropped<T>(s: seq<T>, max: nat, x: T, before: (T, T) -> bool): Option<T> {
    var r := Insert(s, x, before);
    if |r| > max then Some(r[|r| - 1]) else None
  }

  function Opt<T>(x: Option<T>): multiset<T> { if x.Some? then multiset{x.value} else multiset{} }

  /** Nothing is lost: the list and what falls off are the old list and the new item. */
  lemma BoundedConserves<T>(s: seq<T>, max: nat, x: T, before: (T, T) -> bool)
    ensures multiset(Bounded(s, max, x, before)) + Opt(Dropped(s, max, x, before)) == multiset(s) + multiset{x}
  {
    InsertPermutes(s, x, before);
    var r := Insert(s, x, before);
    assert r == r[..|r| - 1] + [r[|r| - 1]];
  }

  lemma BoundedSorted<T(!new)>(s: seq<T>, max: nat, x: T, before: (T, T) -> bool)
    requires WeakOrder(before) && Sorted(s, before) && |s| <= max
    ensures Sorted(Bounded(s, max, x, before), before) && |Bounded(s, max, x, before)| <= max
  {
    InsertSorted(s, x, before);
  }

  /** A bounded list always holds the nearest of everything inserted, earliest first among
      equals: it is the head of a stable sort by distance of all arrivals. */
  lemma HoldsNearest(my: Key, arrivals: seq<Peer>, max: nat)
    ensures var before := Nearer(my); var all := InsertAll(arrivals, before);
            && InsertAllBounded(arrivals, max, before) == Take(all, max)
            && Sorted(all, before) && multiset(all) == multiset(arrivals)
            && forall y :: Ties(all, y, before) == Ties(arrivals, y, before)
  {
    var before := Nearer(my);
    NearerIsOrder(my);
    BoundedHoldsFirst(arrivals, max, before);
    InsertAllSorts(arrivals, before);
    forall y ensures Ties(InsertAll(arrivals, before), y, before) == Ties(arrivals, y, before) {
      InsertAllStable(arrivals, y, before);
    }
  }

  /** `insert_nearest_key`: only a key closer than `least` enters. */
  method InsertNearestKey(list: seq<Peer>, my: Key, least: Key, item: Peer) returns (r: seq<Peer>, entered: bool)
    ensures entered <==> Compare(my, item.key, least) == 1
    ensures r == if entered then Insert(list, item, Nearer(my)) else list
  {
    var cmp := CompareTopology(my, item.key, least);
    if cmp != 1 {
      return list, false;
    }
    var idx := FindPosition(list, item, Nearer(my));
    return list[..idx] + [item] + list[idx..], true;
  }

  // ------------------------------------------------------------ what nearer means

  /** The distances from `c` agree before byte `i`, where `left` is closer. */
  predicate CloserAt(c: Key, left: Key, right: Key, i: nat) {
    && i < KEY_LEN && ByteDistance(c[i], left[i]) < ByteDistance(c[i], right[i])
    && forall j :: 0 <= j < i ==> ByteDistance(c[j], left[j]) == ByteDistance(c[j], right[j])
  }

  /** One peer is nearer than another exactly when it is closer at the first byte at which their
      distances differ. */
  lemma NearerIsCloser(my: Key, a: Peer, b: Peer)
    ensures Nearer(my)(a, b) <==> exists i :: CloserAt(my, a.key, b.key, i)
  {
    CloserFrom(my, a.key, b.key, 0);
  }

  lemma CloserFrom(c: Key, left: Key, right: Key, i: nat)
    requires i <= KEY_LEN && forall j :: 0 <= j < i ==> ByteDistance(c[j], left[j]) == ByteDistance(c[j], right[j])
    ensures CompareFrom(c, left, right, i) == 1 <==> exists k :: CloserAt(c, left, right, k)
    decreases KEY_LEN - i
  {
    if i < KEY_LEN {
      if ByteDistance(c[i], left[i]) == ByteDistance(c[i], right[i]) {
        CloserFrom(c, left, right, i + 1);
      } else if ByteDistance(c[i], left[i]) < ByteDistance(c[i], right[i]) {
        assert CloserAt(c, left, right, i);
      }
    }
  }
}
