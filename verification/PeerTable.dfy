/** Live connections in two tables: a bounded backbone of public peers and bounded offshoots. */
module PeerTable {
  import opened Options
  import opened OrderedList
  import opened Topology

  datatype Tables = Tables(byId: map<nat, Peer>, backbones: seq<Peer>, offshoots: seq<Peer>, snapshot: seq<Peer>)

  datatype Limits = Limits(my: Key, backboneMax: nat, offshootMax: nat)

  datatype Outcome = Outcome(replaced: Option<Peer>, dropLater: seq<Peer>, backboneChanged: bool)

  function Union(t: Tables): seq<Peer> { t.backbones + t.offshoots }

  function ById(s: seq<Peer>): map<nat, Peer> {
    if s == [] then map[] else ById(s[..|s| - 1])[s[|s| - 1].id := s[|s| - 1]]
  }

  /** No two entries share a node key or a connection id. */
  ghost predicate OneEach(m: multiset<Peer>) {
    forall a, b :: a in m && b in m && (a.key == b.key || a.id == b.id) ==> a == b && m[a] == 1
  }

  /** What every step keeps. */
  ghost predicate Valid(t: Tables, lim: Limits) {
    && OneEach(multiset(Union(t)))
    && |t.backbones| <= lim.backboneMax && |t.offshoots| <= lim.offshootMax
    && Sorted(t.backbones, Nearer(lim.my)) && Sorted(t.offshoots, Nearer(lim.my))
    && t.snapshot == Union(t) && t.byId == ById(Union(t))
  }

  lemma CountsTwice(s: seq<Peer>, i: nat, j: nat)
    requires i < j < |s| && s[i] == s[j]
    ensures multiset(s)[s[i]] >= 2
  {
    assert s == s[..j] + s[j..];
    assert s[i] in s[..j] && s[j] in s[j..];
  }

  /** In a list with one entry each, keys and ids are pairwise distinct. */
  lemma OneEachDistinct(s: seq<Peer>, i: nat, j: nat)
    requires OneEach(multiset(s)) && i < j < |s|
    ensures s[i].key != s[j].key && s[i].id != s[j].id
  {
    assert s[i] in s && s[j] in s;
    if s[i] == s[j] {
      CountsTwice(s, i, j);
    }
  }

  lemma SubEach(m: multiset<Peer>, n: multiset<Peer>)
    requires OneEach(n) && m <= n
    ensures OneEach(m)
  {
    forall a, b | a in m && b in m && (a.key == b.key || a.id == b.id) ensures a == b && m[a] == 1 {
      assert a in n && b in n;
    }
  }

  lemma AddEach(m: multiset<Peer>, p: Peer)
    requires OneEach(m) && forall x :: x in m ==> x.key != p.key && x.id != p.id
    ensures OneEach(m + multiset{p})
  {
  }

  // ------------------------------------------------------------ the id map

  lemma {:induction false} ByIdHas(s: seq<Peer>, id: nat)
    ensures id in ById(s) ==> ById(s)[id] in s && ById(s)[id].id == id
    ensures (exists p :: p in s && p.id == id) ==> id in ById(s)
  {
    if s != [] {
      ByIdHas(s[..|s| - 1], id);
      assert s == s[..|s| - 1] + [s[|s| - 1]];
    }
  }

  /** The map depends only on which peers there are. */
  lemma ByIdSame(s: seq<Peer>, t: seq<Peer>)
    requires OneEach(multiset(s)) && multiset(s) == multiset(t)
    ensures ById(s) == ById(t)
  {
    forall id: nat ensures (id in ById(s) <==> id in ById(t)) && (id in ById(s) ==> ById(s)[id] == ById(t)[id]) {
      ByIdHas(s, id);
      ByIdHas(t, id);
      assert forall p :: p in s <==> p in multiset(s);
      assert forall p :: p in t <==> p in multiset(t);
    }
  }

  lemma ByIdMinusAt(s: seq<Peer>, t: seq<Peer>, p: Peer, id: nat)
    requires OneEach(multiset(s)) && (forall x :: x in t <==> x in s && x != p) && p in s
    ensures id in ById(t) <==> id in ById(s) && id != p.id
    ensures id in ById(t) ==> ById(t)[id] == ById(s)[id]
  {
    ByIdHas(s, id);
    ByIdHas(t, id);
    assert forall x :: x in s ==> x in multiset(s);
  }

  /** Dropping one peer drops its id. */
  lemma ByIdMinus(s: seq<Peer>, t: seq<Peer>, p: Peer)
    requires OneEach(multiset(s)) && (forall x :: x in t <==> x in s && x != p) && p in s
    ensures ById(t) == ById(s) - {p.id}
  {
    var a, b := ById(t), ById(s) - {p.id};
    forall id: nat ensures (id in a <==> id in b) && (id in a ==> a[id] == b[id]) {
      ByIdMinusAt(s, t, p, id);
    }
  }

  method RebuildIds(s: seq<Peer>) returns (m: map<nat, Peer>)
    ensures m == ById(s)
  {
    m := map[];
    for i := 0 to |s|
      invariant m == ById(s[..i])
    {
      assert s[..i + 1][..i] == s[..i];
      m := m[s[i].id := s[i]];
    }
    assert s[..|s|] == s;
  }

  // ------------------------------------------------------------ retaining

  function Keep(s: seq<Peer>, f: Peer -> bool): seq<Peer> {
    if s == [] then [] else Keep(s[..|s| - 1], f) + (if f(s[|s| - 1]) then [s[|s| - 1]] else [])
  }

  method Retain(s: seq<Peer>, f: Peer -> bool) returns (r: seq<Peer>)
    ensures r == Keep(s, f)
  {
    r := [];
    for i := 0 to |s|
      invariant r == Keep(s[..i], f)
    {
      assert s[..i + 1][..i] == s[..i];
      if f(s[i]) {
        r := r + [s[i]];
      }
    }
    assert s[..|s|] == s;
  }

  lemma {:induction false} KeepHas(s: seq<Peer>, f: Peer -> bool, x: Peer)
    ensures multiset(Keep(s, f))[x] == if f(x) then multiset(s)[x] else 0
    ensures |Keep(s, f)| <= |s|
  {
    if s != [] {
      KeepHas(s[..|s| - 1], f, x);
      assert s == s[..|s| - 1] + [s[|s| - 1]];
    }
  }

  lemma {:induction false} KeepSorted(s: seq<Peer>, f: Peer -> bool, before: (Peer, Peer) -> bool)
    requires Sorted(s, before)
    ensures Sorted(Keep(s, f), before)
  {
    if s != [] {
      var n := |s| - 1;
      var k := Keep(s[..n], f);
      KeepSorted(s[..n], f, before);
      forall i | 0 <= i < |k| ensures !before(s[n], k[i]) {
        KeepHas(s[..n], f, k[i]);
        assert k[i] in multiset(k);
        assert k[i] in s[..n];
      }
    }
  }

  function OtherKey(key: Key): Peer -> bool { (p: Peer) => p.key != key }

  function OtherPeer(peer: Peer): Peer -> bool { (p: Peer) => p != peer }

  // ------------------------------------------------------------ replacing

  /** The entry a new connection of the same node replaces. */
  function SameNode(s: seq<Peer>, key: Key): Option<Peer> {
    if s == [] then None else if s[0].key == key then Some(s[0]) else SameNode(s[1..], key)
  }

  lemma {:induction false} SameNodeIs(s: seq<Peer>, key: Key)
    ensures SameNode(s, key).Some? ==> SameNode(s, key).value in s && SameNode(s, key).value.key == key
    ensures SameNode(s, key).None? ==> forall p :: p in s ==> p.key != key
    decreases |s|
  {
    if s != [] {
      SameNodeIs(s[1..], key);
      assert s == [s[0]] + s[1..];
    }
  }

  /** Taking out a key takes out exactly the replaced entry. */
  lemma KeyTakenOut(b: seq<Peer>, o: seq<Peer>, key: Key)
    requires OneEach(multiset(b + o))
    ensures var f := OtherKey(key);
            multiset(Keep(b, f)) + multiset(Keep(o, f)) + Opt(SameNode(b + o, key)) == multiset(b + o)
  {
    var f, r := OtherKey(key), SameNode(b + o, key);
    SameNodeIs(b + o, key);
    forall x: Peer
      ensures (multiset(Keep(b, f)) + multiset(Keep(o, f)) + Opt(r))[x] == multiset(b + o)[x]
    {
      KeepHas(b, f, x);
      KeepHas(o, f, x);
      assert multiset(b + o)[x] == multiset(b)[x] + multiset(o)[x];
      if x.key == key && x in b + o {
        assert r.value in multiset(b + o);
      }
    }
  }

  // ------------------------------------------------------------ inserting

  /** The tables after the key is out: a public peer enters the backbone, what it pushes out
      goes to the offshoots if it came in from outside, and what falls off is dropped. */
  datatype Placed = Placed(backbones: seq<Peer>, offshoots: seq<Peer>, dropLater: seq<Peer>)

  function Listed(x: Option<Peer>): seq<Peer> { if x.Some? then [x.value] else [] }

  function Place(lim: Limits, b: seq<Peer>, o: seq<Peer>, peer: Peer, public: bool, inbound: set<nat>): Placed {
    var near := Nearer(lim.my);
    if !public then Placed(b, Bounded(o, lim.offshootMax, peer, near), Listed(Dropped(o, lim.offshootMax, peer, near)))
    else
      var b', out := Bounded(b, lim.backboneMax, peer, near), Dropped(b, lim.backboneMax, peer, near);
      if out.None? || out.value.id !in inbound then Placed(b', o, Listed(out))
      else Placed(b', Bounded(o, lim.offshootMax, out.value, near),
                  Listed(Dropped(o, lim.offshootMax, out.value, near)))
  }

  lemma Regroup(a: multiset<Peer>, b: multiset<Peer>, c: multiset<Peer>)
    ensures (a + b) + c == a + (b + c) == (a + c) + b
  {
  }

  lemma ListedOpt(x: Option<Peer>)
    ensures multiset(Listed(x)) == Opt(x)
  {
  }

  lemma PlaceConserves(lim: Limits, b: seq<Peer>, o: seq<Peer>, peer: Peer, public: bool, inbound: set<nat>)
    ensures var r := Place(lim, b, o, peer, public, inbound);
            (multiset(r.backbones) + multiset(r.offshoots)) + multiset(r.dropLater)
            == (multiset(b) + multiset(o)) + multiset{peer}
  {
    if public {
      PublicConserves(lim, b, o, peer, inbound);
    } else {
      var near := Nearer(lim.my);
      var r, d := Bounded(o, lim.offshootMax, peer, near), Dropped(o, lim.offshootMax, peer, near);
      BoundedConserves(o, lim.offshootMax, peer, near);
      ListedOpt(d);
      Regroup(multiset(b), multiset(r), Opt(d));
      Regroup(multiset(b), multiset(o), multiset{peer});
    }
  }

  lemma PublicConserves(lim: Limits, b: seq<Peer>, o: seq<Peer>, peer: Peer, inbound: set<nat>)
    ensures var r := Place(lim, b, o, peer, true, inbound);
            (multiset(r.backbones) + multiset(r.offshoots)) + multiset(r.dropLater)
            == (multiset(b) + multiset(o)) + multiset{peer}
  {
    var near := Nearer(lim.my);
    var b', out := Bounded(b, lim.backboneMax, peer, near), Dropped(b, lim.backboneMax, peer, near);
    BoundedConserves(b, lim.backboneMax, peer, near);
    Regroup(multiset(b), multiset(o), multiset{peer});
    Regroup(multiset(b'), multiset(o), Opt(out));
    ListedOpt(out);
    if out.Some? && out.value.id in inbound {
      var o', far := Bounded(o, lim.offshootMax, out.value, near), Dropped(o, lim.offshootMax, out.value, near);
      BoundedConserves(o, lim.offshootMax, out.value, near);
      ListedOpt(far);
      Regroup(multiset(b'), multiset(o'), Opt(far));
      Regroup(multiset(b'), multiset(o), multiset{out.value});
    }
  }

  lemma PlaceFits(lim: Limits, b: seq<Peer>, o: seq<Peer>, peer: Peer, public: bool, inbound: set<nat>)
    requires Sorted(b, Nearer(lim.my)) && Sorted(o, Nearer(lim.my)) && |b| <= lim.backboneMax && |o| <= lim.offshootMax
    ensures var r := Place(lim, b, o, peer, public, inbound);
            && Sorted(r.backbones, Nearer(lim.my)) && Sorted(r.offshoots, Nearer(lim.my))
            && |r.backbones| <= lim.backboneMax && |r.offshoots| <= lim.offshootMax
  {
    var near := Nearer(lim.my);
    NearerIsOrder(lim.my);
    BoundedSorted(o, lim.offshootMax, peer, near);
    BoundedSorted(b, lim.backboneMax, peer, near);
    var out := Dropped(b, lim.backboneMax, peer, near);
    if out.Some? {
      BoundedSorted(o, lim.offshootMax, out.value, near);
    }
  }

  function Inserted(t: Tables, lim: Limits, peer: Peer, public: bool, inbound: set<nat>): (Tables, Outcome) {
    var f := OtherKey(peer.key);
    var r := Place(lim, Keep(t.backbones, f), Keep(t.offshoots, f), peer, public, inbound);
    var all := r.backbones + r.offshoots;
    (Tables(ById(all), r.backbones, r.offshoots, all),
     Outcome(SameNode(Union(t), peer.key), r.dropLater, public || |Keep(t.backbones, f)| != |t.backbones|))
  }

  lemma UnionCounts(t: Tables)
    ensures multiset(Union(t)) == multiset(t.backbones) + multiset(t.offshoots)
  {
  }

  /** Inserting loses nobody: each peer is in exactly one of the tables, replaced, or dropped. */
  lemma InsertConserves(t: Tables, lim: Limits, peer: Peer, public: bool, inbound: set<nat>)
    requires OneEach(multiset(Union(t)))
    ensures var (t', out) := Inserted(t, lim, peer, public, inbound);
            (multiset(Union(t')) + multiset(out.dropLater)) + Opt(out.replaced) == multiset(Union(t)) + multiset{peer}
  {
    var f := OtherKey(peer.key);
    var b, o := Keep(t.backbones, f), Keep(t.offshoots, f);
    var (t', out) := Inserted(t, lim, peer, public, inbound);
    KeyTakenOut(t.backbones, t.offshoots, peer.key);
    PlaceConserves(lim, b, o, peer, public, inbound);
    UnionCounts(t');
    Regroup(multiset(b) + multiset(o), multiset{peer}, Opt(out.replaced));
  }

  /** ... and keeps the tables valid. */
  lemma InsertKeeps(t: Tables, lim: Limits, peer: Peer, public: bool, inbound: set<nat>)
    requires Valid(t, lim) && forall p :: p in Union(t) ==> p.id != peer.id
    ensures Valid(Inserted(t, lim, peer, public, inbound).0, lim)
  {
    var f := OtherKey(peer.key);
    InsertOneEach(t, lim, peer, public, inbound);
    KeepSorted(t.backbones, f, Nearer(lim.my));
    KeepSorted(t.offshoots, f, Nearer(lim.my));
    KeepHas(t.backbones, f, peer);
    KeepHas(t.offshoots, f, peer);
    PlaceFits(lim, Keep(t.backbones, f), Keep(t.offshoots, f), peer, public, inbound);
  }

  lemma InsertOneEach(t: Tables, lim: Limits, peer: Peer, public: bool, inbound: set<nat>)
    requires OneEach(multiset(Union(t))) && forall p :: p in Union(t) ==> p.id != peer.id
    ensures OneEach(multiset(Union(Inserted(t, lim, peer, public, inbound).0)))
  {
    var f := OtherKey(peer.key);
    var b, o := Keep(t.backbones, f), Keep(t.offshoots, f);
    var m, t' := multiset(b) + multiset(o), Inserted(t, lim, peer, public, inbound).0;
    KeyTakenOut(t.backbones, t.offshoots, peer.key);
    OthersDiffer(t, peer);
    assert m <= multiset(Union(t));
    SubEach(m, multiset(Union(t)));
    AddEach(m, peer);
    PlaceConserves(lim, b, o, peer, public, inbound);
    UnionCounts(t');
    assert multiset(Union(t')) <= m + multiset{peer};
    SubEach(multiset(Union(t')), m + multiset{peer});
  }

  lemma OthersDiffer(t: Tables, peer: Peer)
    requires forall p :: p in Union(t) ==> p.id != peer.id
    ensures var f := OtherKey(peer.key);
            forall x :: x in multiset(Keep(t.backbones, f)) + multiset(Keep(t.offshoots, f)) ==>
              x.key != peer.key && x.id != peer.id
  {
    var f := OtherKey(peer.key);
    forall x | x in multiset(Keep(t.backbones, f)) + multiset(Keep(t.offshoots, f))
      ensures x.key != peer.key && x.id != peer.id
    {
      KeepHas(t.backbones, f, x);
      KeepHas(t.offshoots, f, x);
      assert x in t.backbones || x in t.offshoots;
      assert x in Union(t);
    }
  }

  /** A pushed-out peer never meets its own key again: the duplicate branch is dead. */
  lemma PushedOutIsNew(lim: Limits, b: seq<Peer>, o: seq<Peer>, peer: Peer, p: Peer)
    requires OneEach((multiset(b) + multiset(o)) + multiset{peer})
    requires p in Bounded(b, lim.backboneMax, peer, Nearer(lim.my)) + o
    ensures var out := Dropped(b, lim.backboneMax, peer, Nearer(lim.my)); out.Some? ==> p.key != out.value.key
  {
    var near := Nearer(lim.my);
    var b', out := Bounded(b, lim.backboneMax, peer, near), Dropped(b, lim.backboneMax, peer, near);
    BoundedConserves(b, lim.backboneMax, peer, near);
    Regroup(multiset(b), multiset(o), multiset{peer});
    Regroup(multiset(b'), multiset(o), Opt(out));
    if out.Some? {
      ApartFromAdded(multiset(b') + multiset(o), out.value, p);
    }
  }

  lemma ApartFromAdded(m: multiset<Peer>, x: Peer, p: Peer)
    requires OneEach(m + multiset{x}) && p in m
    ensures p.key != x.key
  {
    assert p in m + multiset{x} && x in m + multiset{x};
  }

  // ------------------------------------------------------------ removing and promoting

  function Removed(t: Tables, peer: Peer): (Tables, bool) {
    if peer.id !in t.byId || t.byId[peer.id] != peer then (t, false)
    else
      var b, o := Keep(t.backbones, OtherPeer(peer)), Keep(t.offshoots, OtherPeer(peer));
      (Tables(t.byId - {peer.id}, b, o, b + o), true)
  }

  /** Removing takes out exactly this connection, and only if it is still the current one. */
  lemma RemoveTakesOne(t: Tables, lim: Limits, peer: Peer)
    requires Valid(t, lim)
    ensures var (t', ok) := Removed(t, peer);
            (ok <==> peer in Union(t)) && multiset(Union(t')) == multiset(Union(t)) - multiset{peer}
  {
    ByIdHas(Union(t), peer.id);
    assert forall x :: x in Union(t) <==> x in multiset(Union(t));
    RemovedUnion(t, peer);
  }

  lemma RemoveKeeps(t: Tables, lim: Limits, peer: Peer)
    requires Valid(t, lim)
    ensures Valid(Removed(t, peer).0, lim)
  {
    var (t', ok) := Removed(t, peer);
    if ok {
      RemoveTakesOne(t, lim, peer);
      SubEach(multiset(Union(t')), multiset(Union(t)));
      RemovedIds(t, t', peer);
      RemovedFits(t, lim, peer);
    }
  }

  lemma RemovedFits(t: Tables, lim: Limits, peer: Peer)
    requires Sorted(t.backbones, Nearer(lim.my)) && Sorted(t.offshoots, Nearer(lim.my))
    ensures var f := OtherPeer(peer);
            && Sorted(Keep(t.backbones, f), Nearer(lim.my)) && Sorted(Keep(t.offshoots, f), Nearer(lim.my))
            && |Keep(t.backbones, f)| <= |t.backbones| && |Keep(t.offshoots, f)| <= |t.offshoots|
  {
    var f := OtherPeer(peer);
    KeepSorted(t.backbones, f, Nearer(lim.my));
    KeepSorted(t.offshoots, f, Nearer(lim.my));
    KeepHas(t.backbones, f, peer);
    KeepHas(t.offshoots, f, peer);
  }

  lemma RemovedIds(t: Tables, t': Tables, peer: Peer)
    requires OneEach(multiset(Union(t))) && peer in Union(t)
    requires multiset(Union(t')) == multiset(Union(t)) - multiset{peer}
    ensures ById(Union(t')) == ById(Union(t)) - {peer.id}
  {
    var s, u := Union(t), Union(t');
    assert peer in multiset(s) && multiset(s)[peer] == 1;
    forall x ensures x in u <==> x in s && x != peer {
      assert x in u <==> x in multiset(u);
      assert x in s <==> x in multiset(s);
    }
    ByIdMinus(s, u, peer);
  }

  lemma RemovedUnion(t: Tables, peer: Peer)
    requires OneEach(multiset(Union(t)))
    ensures var f := OtherPeer(peer);
            multiset(Keep(t.backbones, f) + Keep(t.offshoots, f)) == multiset(Union(t)) - multiset{peer}
  {
    var f := OtherPeer(peer);
    var b, o := Keep(t.backbones, f), Keep(t.offshoots, f);
    forall x: Peer ensures multiset(b + o)[x] == (multiset(Union(t)) - multiset{peer})[x] {
      KeepHas(t.backbones, f, x);
      KeepHas(t.offshoots, f, x);
      assert multiset(b + o)[x] == multiset(b)[x] + multiset(o)[x];
      assert multiset(Union(t))[x] == multiset(t.backbones)[x] + multiset(t.offshoots)[x];
    }
  }

  function FirstPublic(s: seq<Peer>, publics: set<nat>): (r: Option<nat>)
    ensures r.Some? ==> r.value < |s| && s[r.value].id in publics
    ensures r.Some? ==> forall i :: 0 <= i < r.value ==> s[i].id !in publics
    ensures r.None? ==> forall i :: 0 <= i < |s| ==> s[i].id !in publics
  {
    if s == [] then None
    else if s[0].id in publics then Some(0)
    else match FirstPublic(s[1..], publics) case None => None case Some(i) => Some(i + 1)
  }

  function Boosted(t: Tables, lim: Limits, publics: set<nat>): (Tables, bool) {
    if |t.backbones| >= lim.backboneMax || FirstPublic(t.offshoots, publics).None? then (t, false)
    else
      var i := FirstPublic(t.offshoots, publics).value;
      var b := Bounded(t.backbones, lim.backboneMax, t.offshoots[i], Nearer(lim.my));
      var o := t.offshoots[..i] + t.offshoots[i + 1..];
      (Tables(t.byId, b, o, b + o), true)
  }

  /** Promotion moves one public offshoot into the free backbone slot and drops nobody. */
  lemma BoostMoves(t: Tables, lim: Limits, publics: set<nat>)
    ensures var (t', ok) := Boosted(t, lim, publics);
            && multiset(Union(t')) == multiset(Union(t))
            && (ok ==> |t'.backbones| == |t.backbones| + 1 && |t'.offshoots| == |t.offshoots| - 1)
  {
    var (t', ok) := Boosted(t, lim, publics);
    if ok {
      var near := Nearer(lim.my);
      var i := FirstPublic(t.offshoots, publics).value;
      var x := t.offshoots[i];
      BoundedConserves(t.backbones, lim.backboneMax, x, near);
      assert t.offshoots == (t.offshoots[..i] + [x]) + t.offshoots[i + 1..];
      assert multiset(t.offshoots) == multiset(t'.offshoots) + multiset{x};
      UnionCounts(t);
      UnionCounts(t');
      Regroup(multiset(t.backbones), multiset(t'.offshoots), multiset{x});
    }
  }

  lemma BoostKeeps(t: Tables, lim: Limits, publics: set<nat>)
    requires Valid(t, lim)
    ensures Valid(Boosted(t, lim, publics).0, lim)
  {
    var (t', ok) := Boosted(t, lim, publics);
    if ok {
      BoostMoves(t, lim, publics);
      ByIdSame(Union(t), Union(t'));
      BoostSorted(t, lim, publics);
    }
  }

  lemma BoostSorted(t: Tables, lim: Limits, publics: set<nat>)
    requires Sorted(t.backbones, Nearer(lim.my)) && Sorted(t.offshoots, Nearer(lim.my))
    requires Boosted(t, lim, publics).1
    ensures var t' := Boosted(t, lim, publics).0;
            && Sorted(t'.backbones, Nearer(lim.my)) && Sorted(t'.offshoots, Nearer(lim.my))
            && |t'.backbones| <= lim.backboneMax
  {
    var i := FirstPublic(t.offshoots, publics).value;
    NearerIsOrder(lim.my);
    BoundedSorted(t.backbones, lim.backboneMax, t.offshoots[i], Nearer(lim.my));
    CutSorted(t.offshoots, i, Nearer(lim.my));
  }

  lemma CutSorted(s: seq<Peer>, i: nat, before: (Peer, Peer) -> bool)
    requires Sorted(s, before) && i < |s|
    ensures Sorted(s[..i] + s[i + 1..], before)
  {
  }

  // ------------------------------------------------------------ which table

  /** Every peer of `s` is at least as near as `x`. */
  ghost predicate NoneFarther(s: seq<Peer>, my: Key, x: Peer) {
    forall i :: 0 <= i < |s| ==> !Nearer(my)(x, s[i])
  }

  /** What a bounded list does with a new peer: it enters unless the list is full of peers at
      least as near, and of a full list exactly one peer falls off, the last in order. */
  lemma EntersUnlessFull(s: seq<Peer>, max: nat, my: Key, x: Peer)
    requires Sorted(s, Nearer(my)) && x !in s && |s| <= max
    ensures var r := Bounded(s, max, x, Nearer(my));
            && (x in r <==> |s| < max || !NoneFarther(s, my, x))
            && (x !in r ==> r == s && |s| == max && NoneFarther(s, my, x))
            && (|s| < max ==> Dropped(s, max, x, Nearer(my)).None?)
            && (|s| == max ==> Dropped(s, max, x, Nearer(my)).Some?)
  {
    var before := Nearer(my);
    var r, p := Insert(s, x, before), Position(s, x, before);
    InsertAt(s, x, before, p);
    if p < |s| {
      assert before(x, s[p]);
      assert Bounded(s, max, x, before)[p] == x;
    } else {
      assert r == s + [x];
      if |s| < max { assert r[p] == x; }
    }
  }

  /** What falls off is the new peer or was in the list, and no longer is in it. */
  lemma DroppedWas(s: seq<Peer>, max: nat, my: Key, x: Peer)
    requires Dropped(s, max, x, Nearer(my)).Some?
    ensures var d := Dropped(s, max, x, Nearer(my)).value; (d == x || d in s)
    ensures multiset(Bounded(s, max, x, Nearer(my))) + multiset{Dropped(s, max, x, Nearer(my)).value}
         == multiset(s) + multiset{x}
  {
    BoundedConserves(s, max, x, Nearer(my));
    var d := Dropped(s, max, x, Nearer(my)).value;
    assert d in multiset(s) + multiset{x};
  }

  /** Everything but the new peer and what falls off stays. */
  lemma BoundedHas(s: seq<Peer>, max: nat, my: Key, x: Peer, y: Peer)
    requires y in s && x !in s && (Dropped(s, max, x, Nearer(my)) == None || Dropped(s, max, x, Nearer(my)).value != y)
    ensures y in Bounded(s, max, x, Nearer(my))
  {
    BoundedConserves(s, max, x, Nearer(my));
    assert y in multiset(s) + multiset{x};
    assert y in multiset(Bounded(s, max, x, Nearer(my)));
  }

  /** The old list without a node: what was in it with another key, in order. */
  lemma LessKey(s: seq<Peer>, key: Key, x: Peer)
    ensures x in Keep(s, OtherKey(key)) <==> x in s && x.key != key
  {
    KeepHas(s, OtherKey(key), x);
    assert x in Keep(s, OtherKey(key)) <==> x in multiset(Keep(s, OtherKey(key)));
    assert x in s <==> x in multiset(s);
  }

  lemma {:induction false} KeepAll(s: seq<Peer>, f: Peer -> bool)
    requires |Keep(s, f)| == |s|
    ensures Keep(s, f) == s
  {
    if s != [] {
      KeepHas(s[..|s| - 1], f, s[0]);
      KeepAll(s[..|s| - 1], f);
    }
  }

  /** A peer that is not public never enters the backbone: the backbone is the old one less the
      peer's node. The peer is among the offshoots, or falls off a full list of offshoots at
      least as near. */
  lemma PrivateStaysOut(t: Tables, lim: Limits, peer: Peer, inbound: set<nat>)
    requires Valid(t, lim)
    ensures var (t', out) := Inserted(t, lim, peer, false, inbound);
            && t'.backbones == Keep(t.backbones, OtherKey(peer.key)) && peer !in t'.backbones
            && (peer !in t'.offshoots ==>
                  && out.dropLater == [peer] && |t'.offshoots| == lim.offshootMax
                  && NoneFarther(t'.offshoots, lim.my, peer))
            && (out.backboneChanged <==> t'.backbones != t.backbones)
  {
    var f := OtherKey(peer.key);
    var o := Keep(t.offshoots, f);
    KeepSorted(t.offshoots, f, Nearer(lim.my));
    LessKey(t.offshoots, peer.key, peer);
    LessKey(t.backbones, peer.key, peer);
    KeepHas(t.offshoots, f, peer);
    EntersUnlessFull(o, lim.offshootMax, lim.my, peer);
    if |Keep(t.backbones, f)| == |t.backbones| { KeepAll(t.backbones, f); }
    if peer !in Bounded(o, lim.offshootMax, peer, Nearer(lim.my)) {
      FullDrops(o, lim.offshootMax, lim.my, peer);
    }
  }

  lemma FullDrops(s: seq<Peer>, max: nat, my: Key, x: Peer)
    requires x !in Bounded(s, max, x, Nearer(my)) && x !in s && |s| <= max
    ensures Dropped(s, max, x, Nearer(my)) == Some(x)
  {
    BoundedConserves(s, max, x, Nearer(my));
    assert x in multiset(s) + multiset{x};
  }

  /** A public peer enters the backbone unless that is full of peers at least as near. */
  lemma PublicEnters(t: Tables, lim: Limits, peer: Peer, inbound: set<nat>)
    requires Valid(t, lim)
    ensures var (t', out) := Inserted(t, lim, peer, true, inbound);
            var old' := Keep(t.backbones, OtherKey(peer.key));
            && out.backboneChanged
            && (peer in t'.backbones <==> |old'| < lim.backboneMax || !NoneFarther(old', lim.my, peer))
            && (peer !in t'.backbones ==> t'.backbones == old')
            && (|old'| < lim.backboneMax ==>
                  t'.offshoots == Keep(t.offshoots, OtherKey(peer.key)) && out.dropLater == [])
  {
    var f := OtherKey(peer.key);
    KeepSorted(t.backbones, f, Nearer(lim.my));
    LessKey(t.backbones, peer.key, peer);
    KeepHas(t.backbones, f, peer);
    EntersUnlessFull(Keep(t.backbones, f), lim.backboneMax, lim.my, peer);
  }

  /** A peer pushed out of the backbone: if it came in from outside it is among the offshoots, or
      falls off a full list of offshoots at least as near; if not, it is dropped and the
      offshoots are the old ones less the new peer's node. */
  lemma PushedOutGoes(t: Tables, lim: Limits, peer: Peer, inbound: set<nat>, x: Peer)
    requires Valid(t, lim)
    requires var t' := Inserted(t, lim, peer, true, inbound).0;
             (x == peer || x in Keep(t.backbones, OtherKey(peer.key))) && x !in t'.backbones
    ensures var (t', out) := Inserted(t, lim, peer, true, inbound);
            && (x.id !in inbound ==>
                  out.dropLater == [x] && t'.offshoots == Keep(t.offshoots, OtherKey(peer.key)))
            && (x.id in inbound && x !in t'.offshoots ==>
                  out.dropLater == [x] && |t'.offshoots| == lim.offshootMax && NoneFarther(t'.offshoots, lim.my, x))
  {
    var f := OtherKey(peer.key);
    var b, o := Keep(t.backbones, f), Keep(t.offshoots, f);
    LessKey(t.backbones, peer.key, peer);
    KeepHas(t.backbones, f, peer);
    KeepHas(t.offshoots, f, peer);
    KeepSorted(t.offshoots, f, Nearer(lim.my));
    PushedIs(b, lim.backboneMax, lim.my, peer, x);
    if x.id in inbound {
      NotOffshoot(t, peer, x);
      EntersUnlessFull(o, lim.offshootMax, lim.my, x);
      if x !in Bounded(o, lim.offshootMax, x, Nearer(lim.my)) {
        FullDrops(o, lim.offshootMax, lim.my, x);
      }
    }
  }

  lemma PushedIs(b: seq<Peer>, max: nat, my: Key, peer: Peer, x: Peer)
    requires peer !in b && (x == peer || x in b) && x !in Bounded(b, max, peer, Nearer(my)) && |b| <= max
    ensures Dropped(b, max, peer, Nearer(my)) == Some(x)
  {
    if x == peer {
      FullDrops(b, max, my, peer);
    } else if Dropped(b, max, peer, Nearer(my)).None? || Dropped(b, max, peer, Nearer(my)).value != x {
      BoundedHas(b, max, my, peer, x);
    }
  }

  lemma BothCountTwice(t: Tables, x: Peer)
    requires x in t.backbones && x in t.offshoots
    ensures x in multiset(Union(t)) && multiset(Union(t))[x] >= 2
  {
    UnionCounts(t);
    assert x in multiset(t.backbones) && x in multiset(t.offshoots);
  }

  /** Nobody of the backbone, nor the new peer, is among the kept offshoots. */
  lemma NotOffshoot(t: Tables, peer: Peer, x: Peer)
    requires OneEach(multiset(Union(t))) && (x == peer || x in Keep(t.backbones, OtherKey(peer.key)))
    ensures x !in Keep(t.offshoots, OtherKey(peer.key))
  {
    LessKey(t.offshoots, peer.key, x);
    LessKey(t.backbones, peer.key, x);
    if x in t.backbones && x in t.offshoots {
      BothCountTwice(t, x);
      assert false;
    }
  }

  /** Promotion happens exactly when there is room and a public offshoot, and moves the first. */
  lemma BoostPromotes(t: Tables, lim: Limits, publics: set<nat>)
    ensures var (t', ok) := Boosted(t, lim, publics);
            && (ok <==> && |t.backbones| < lim.backboneMax
                        && exists i :: 0 <= i < |t.offshoots| && t.offshoots[i].id in publics)
            && (ok ==> exists i :: PromotedAt(t, t', publics, i))
  {
    var (t', ok) := Boosted(t, lim, publics);
    if ok {
      var i := FirstPublic(t.offshoots, publics).value;
      var x, before := t.offshoots[i], Nearer(lim.my);
      InsertAt(t.backbones, x, before, Position(t.backbones, x, before));
      assert t'.backbones[Position(t.backbones, x, before)] == x;
      assert PromotedAt(t, t', publics, i);
    }
  }

  /** The offshoot at `i`, the first public one, moved to the backbone. */
  ghost predicate PromotedAt(t: Tables, t': Tables, publics: set<nat>, i: nat) {
    && i < |t.offshoots| && t.offshoots[i].id in publics
    && (forall k :: 0 <= k < i ==> t.offshoots[k].id !in publics)
    && t.offshoots[i] in t'.backbones && t'.offshoots == t.offshoots[..i] + t.offshoots[i + 1..]
  }

  // ------------------------------------------------------------ every run

  datatype TableEvent =
    | Joins(peer: Peer, public: bool, inbound: set<nat>)
    | Leaves(peer: Peer)
    | Boosts(publics: set<nat>)

  function After(t: Tables, lim: Limits, e: TableEvent): Tables {
    match e
    case Joins(peer, public, inbound) => Inserted(t, lim, peer, public, inbound).0
    case Leaves(peer) => Removed(t, peer).0
    case Boosts(publics) => Boosted(t, lim, publics).0
  }

  predicate AfterAt(states: seq<Tables>, events: seq<TableEvent>, lim: Limits, i: nat) {
    i < |events| && i + 1 < |states| && states[i + 1] == After(states[i], lim, events[i])
  }

  /** A run from empty tables. */
  ghost predicate TableRun(states: seq<Tables>, events: seq<TableEvent>, lim: Limits) {
    && |states| == |events| + 1 && states[0] == Tables(map[], [], [], [])
    && forall i :: 0 <= i < |events| ==> AfterAt(states, events, lim, i)
  }

  /** The event lets `p` into the backbone as a public peer. */
  predicate AdmitsPublic(e: TableEvent, p: Peer) {
    match e
    case Joins(peer, public, _) => peer == p && public
    case Leaves(_) => false
    case Boosts(publics) => p.id in publics
  }

  lemma RemoveAdmitsNone(t: Tables, peer: Peer, p: Peer)
    requires p in Removed(t, peer).0.backbones
    ensures p in t.backbones
  {
    var f := OtherPeer(peer);
    KeepHas(t.backbones, f, p);
    if p in Keep(t.backbones, f) { assert p in multiset(Keep(t.backbones, f)); }
    assert p in multiset(t.backbones) ==> p in t.backbones;
  }

  lemma BoundedOnly(s: seq<Peer>, max: nat, my: Key, x: Peer, y: Peer)
    requires y in Bounded(s, max, x, Nearer(my))
    ensures y in s || y == x
  {
    BoundedConserves(s, max, x, Nearer(my));
    assert y in multiset(Bounded(s, max, x, Nearer(my)));
    assert y in multiset(s) + multiset{x};
  }

  /** Whoever is new in the backbone is public at that event. */
  lemma NewInBackbone(t: Tables, lim: Limits, e: TableEvent, p: Peer)
    requires p in After(t, lim, e).backbones && p !in t.backbones
    ensures AdmitsPublic(e, p)
  {
    match e
    case Joins(peer, public, inbound) =>
      LessKey(t.backbones, peer.key, p);
      if public { BoundedOnly(Keep(t.backbones, OtherKey(peer.key)), lim.backboneMax, lim.my, peer, p); }
    case Leaves(peer) =>
      RemoveAdmitsNone(t, peer, p);
    case Boosts(publics) =>
      if Boosted(t, lim, publics).1 {
        var i := FirstPublic(t.offshoots, publics).value;
        BoundedOnly(t.backbones, lim.backboneMax, lim.my, t.offshoots[i], p);
      }
  }

  /** `p` was let in as a public peer at event `k` and has been in the backbone ever since. */
  ghost predicate SincePublic(states: seq<Tables>, events: seq<TableEvent>, n: nat, p: Peer, k: nat) {
    && k < n < |states| && k < |events| && AdmitsPublic(events[k], p)
    && forall m :: k < m <= n ==> p in states[m].backbones
  }

  /** In every run of joins, departures and promotions, every member of the backbone was public
      when it entered. */
  lemma {:induction false} BackboneIsPublic(states: seq<Tables>, events: seq<TableEvent>, lim: Limits, n: nat, p: Peer)
    requires TableRun(states, events, lim) && n < |states| && p in states[n].backbones
    ensures exists k :: SincePublic(states, events, n, p, k)
  {
    if n > 0 {
      if p in states[n - 1].backbones {
        BackboneIsPublic(states, events, lim, n - 1, p);
        var k :| SincePublic(states, events, n - 1, p, k);
        assert SincePublic(states, events, n, p, k);
      } else {
        assert AfterAt(states, events, lim, n - 1);
        NewInBackbone(states[n - 1], lim, events[n - 1], p);
        assert SincePublic(states, events, n, p, n - 1);
      }
    }
  }

  /** A connection that joins has an id of its own. */
  predicate NewId(t: Tables, e: TableEvent) {
    e.Joins? ==> forall p :: p in Union(t) ==> p.id != e.peer.id
  }

  ghost function ValidTables(lim: Limits): iset<Tables> {
    iset t: Tables | Valid(t, lim)
  }

  lemma AfterValid(t: Tables, lim: Limits, e: TableEvent)
    requires t in ValidTables(lim) && NewId(t, e)
    ensures After(t, lim, e) in ValidTables(lim)
  {
    match e
    case Joins(peer, public, inbound) => InsertKeeps(t, lim, peer, public, inbound);
    case Leaves(peer) => RemoveKeeps(t, lim, peer);
    case Boosts(publics) => BoostKeeps(t, lim, publics);
  }

  /** The tables are valid in every state of every run. */
  lemma {:induction false} TablesStayValid(states: seq<Tables>, events: seq<TableEvent>, lim: Limits, n: nat)
    requires TableRun(states, events, lim) && n < |states|
    requires forall i :: 0 <= i < |events| ==> NewId(states[i], events[i])
    ensures states[n] in ValidTables(lim)
  {
    if n > 0 {
      TablesStayValid(states, events, lim, n - 1);
      assert AfterAt(states, events, lim, n - 1);
      AfterValid(states[n - 1], lim, events[n - 1]);
    }
  }

  // ------------------------------------------------------------ the table as it runs

  /** `public` and `inbound` are the connections' flags at the time of the call. */
  class Table {
    const lim: Limits
    var byId: map<nat, Peer>
    var backbones: seq<Peer>
    var offshoots: seq<Peer>
    var snapshot: seq<Peer>

    function Abs(): Tables
      reads this
    {
      Tables(byId, backbones, offshoots, snapshot)
    }

    constructor (lim: Limits)
      ensures this.lim == lim && Abs() == Tables(map[], [], [], []) && Valid(Abs(), lim)
    {
      this.lim, byId, backbones, offshoots, snapshot := lim, map[], [], [], [];
    }

    method PublishSnapshot()
      modifies this
      ensures Abs() == old(Abs()).(snapshot := Union(old(Abs())))
    {
      snapshot := backbones + offshoots;
    }

    method Insert(peer: Peer, public: bool, inbound: set<nat>) returns (out: Outcome)
      modifies this
      ensures (Abs(), out) == Inserted(old(Abs()), lim, peer, public, inbound)
    {
      var replaced := SameNode(backbones + offshoots, peer.key);
      var kept := Retain(backbones, OtherKey(peer.key));
      var changed := public || |kept| != |backbones|;
      backbones := kept;
      offshoots := Retain(offshoots, OtherKey(peer.key));
      var dropLater := PlacePeer(peer, public, inbound);
      byId := RebuildIds(backbones + offshoots);
      PublishSnapshot();
      out := Outcome(replaced, dropLater, changed);
    }

    method PlacePeer(peer: Peer, public: bool, inbound: set<nat>) returns (dropLater: seq<Peer>)
      modifies this`backbones, this`offshoots
      ensures Placed(backbones, offshoots, dropLater)
           == Place(lim, old(backbones), old(offshoots), peer, public, inbound)
    {
      dropLater := [];
      if public {
        var list, pushed := InsertOrdered(backbones, lim.backboneMax, lim.my, peer);
        backbones := list;
        if pushed.Some? {
          if pushed.value.id !in inbound {
            dropLater := [pushed.value];
          } else {
            var rest, far := InsertOrdered(offshoots, lim.offshootMax, lim.my, pushed.value);
            offshoots, dropLater := rest, Listed(far);
          }
        }
      } else {
        var rest, far := InsertOrdered(offshoots, lim.offshootMax, lim.my, peer);
        offshoots, dropLater := rest, Listed(far);
      }
    }

    method Remove(peer: Peer) returns (ok: bool)
      modifies this
      ensures (Abs(), ok) == Removed(old(Abs()), peer)
    {
      if peer.id !in byId || byId[peer.id] != peer {
        return false;
      }
      byId := byId - {peer.id};
      backbones := Retain(backbones, OtherPeer(peer));
      offshoots := Retain(offshoots, OtherPeer(peer));
      PublishSnapshot();
      ok := true;
    }

    method BoostPublic(publics: set<nat>) returns (ok: bool)
      modifies this
      ensures (Abs(), ok) == Boosted(old(Abs()), lim, publics)
    {
      if |backbones| >= lim.backboneMax {
        return false;
      }
      var index := FirstPublic(offshoots, publics);
      if index.None? {
        return false;
      }
      var peer := offshoots[index.value];
      offshoots := offshoots[..index.value] + offshoots[index.value + 1..];
      var list, dropped := InsertOrdered(backbones, lim.backboneMax, lim.my, peer);
      backbones := list;
      PublishSnapshot();
      ok := true;
    }
  }
}
