/** Dropping side branches beyond a capacity: which subtrees go, in which order. */
module SideEviction {
  import opened Blocks
  import opened ForkTree

  /** Live chunks off the path from the root to the head. */
  ghost function SideNodes(f: Forest): set<Chunk> {
    set c | c in AllChunks(f) && InTree(f, c) && !Above(c, f.head)
  }

  /** The first chunk of a side branch: it hangs off the canonical path. */
  predicate IsSideRoot(f: Forest, c: Chunk) {
    c.Node? && InTree(f, c) && !Above(c, f.head) && Above(c.parent, f.head)
  }

  function Without(s: seq<Chunk>, c: Chunk): (r: seq<Chunk>)
    ensures forall x :: x in r <==> x in s && x != c
    ensures forall i :: 0 <= i < |r| ==> r[i] in s
    ensures (forall i, j :: 0 <= i < j < |s| ==> s[i].block != s[j].block)
        ==> (forall i, j :: 0 <= i < j < |r| ==> r[i].block != r[j].block)
    ensures c !in s ==> r == s
  {
    if s == [] then [] else if s[0] == c then Without(s[1..], c) else [s[0]] + Without(s[1..], c)
  }

  /** `remove_block_child`: cut `c` from its parent; the subtree is no longer reachable. */
  function RemoveKid(f: Forest, c: Chunk): Forest
    requires c.Node?
  {
    f.(kids := f.kids[c.parent := Without(Kids(f, c.parent), c)])
  }

  ghost predicate AllNodes(s: seq<Chunk>) {
    forall i :: 0 <= i < |s| ==> s[i].Node?
  }

  function RemoveAll(f: Forest, s: seq<Chunk>): (r: Forest)
    requires AllNodes(s)
    ensures r.root == f.root && r.head == f.head && r.sched == f.sched && r.disk == f.disk
    ensures r.frozen == f.frozen && r.epoch == f.epoch
  {
    if s == [] then f else RemoveKid(RemoveAll(f, s[..|s| - 1]), s[|s| - 1])
  }

  /** Cutting a live chunk makes exactly its subtree unreachable. */
  lemma RemoveKidLive(f: Forest, c: Chunk, x: Chunk)
    requires c.Node? && InTree(f, c) && c != f.root
    ensures InTree(RemoveKid(f, c), x) <==> InTree(f, x) && !Above(c, x)
  {
    if x == f.root {
      if Above(c, x) { RootNotBelow(f, c); }
    } else if x.Node? {
      RemoveKidLive(f, c, x.parent);
    }
  }

  lemma RootNotBelow(f: Forest, c: Chunk)
    requires c.Node? && InTree(f, c) && c != f.root
    ensures !Above(c, f.root)
  {
    InTreeBelowRoot(f, c.parent);
    NoCycle(c, f.root);
  }

  lemma InTreeBelowRoot(f: Forest, c: Chunk)
    requires InTree(f, c)
    ensures Above(f.root, c)
  {
    if c != f.root {
      InTreeBelowRoot(f, c.parent);
    }
  }

  lemma RemoveKidValid(f: Forest, c: Chunk)
    requires Valid(f) && c.Node? && InTree(f, c) && !Above(c, f.head) && c != f.root
    ensures Valid(RemoveKid(f, c))
  {
    RemoveKidLive(f, c, f.head);
    InTreeFacts(f, c.parent);
  }

  // ------------------------------------------------------------ eviction order

  /** Weakest fork choice first, then hash. */
  predicate Weaker(a: Chunk, b: Chunk) {
    a.key < b.key || (a.key == b.key && Digest(a.block) <= Digest(b.block))
  }

  predicate Ordered(s: seq<Chunk>) {
    forall i, j :: 0 <= i < j < |s| ==> Weaker(s[i], s[j])
  }

  /** `s` lists the side roots of `f`, each once. */
  ghost predicate ListsSideRoots(f: Forest, s: seq<Chunk>) {
    && (forall i, j :: 0 <= i < j < |s| ==> s[i] != s[j])
    && (forall c :: c in s <==> IsSideRoot(f, c))
  }

  /** The branch a side chunk belongs to. */
  ghost function SideRootOf(f: Forest, x: Chunk): (c: Chunk)
    requires Valid(f) && InTree(f, x) && !Above(x, f.head)
    ensures IsSideRoot(f, c) && Above(c, x)
  {
    InTreeFacts(f, f.head);
    if Above(x.parent, f.head) then x else SideRootOf(f, x.parent)
  }

  /** Side branches are disjoint: below one side root lies no other. */
  lemma SideRootsApart(f: Forest, a: Chunk, b: Chunk)
    requires IsSideRoot(f, a) && IsSideRoot(f, b) && Above(a, b)
    ensures a == b
  {
    if a != b {
      AboveTransitive(a, b.parent, f.head);
    }
  }

  /** No chunk of `s` leads to `x`. */
  predicate Spared(s: seq<Chunk>, x: Chunk) {
    forall i :: 0 <= i < |s| ==> !Above(s[i], x)
  }

  /** Distinct side roots. */
  ghost predicate Cuts(f: Forest, s: seq<Chunk>) {
    && AllNodes(s)
    && (forall i :: 0 <= i < |s| ==> IsSideRoot(f, s[i]))
    && (forall i, j :: 0 <= i < j < |s| ==> s[i] != s[j])
  }

  lemma CutsSpare(f: Forest, s: seq<Chunk>)
    requires Cuts(f, s) && s != []
    ensures Cuts(f, s[..|s| - 1]) && Spared(s[..|s| - 1], s[|s| - 1])
  {
    var n := |s| - 1;
    forall i | 0 <= i < n ensures !Above(s[i], s[n]) {
      if Above(s[i], s[n]) { SideRootsApart(f, s[i], s[n]); }
    }
  }

  lemma SparedSnoc(s: seq<Chunk>, x: Chunk)
    requires s != []
    ensures Spared(s, x) <==> Spared(s[..|s| - 1], x) && !Above(s[|s| - 1], x)
  {
    var n := |s| - 1;
    if Spared(s[..n], x) && !Above(s[n], x) {
      forall i | 0 <= i < |s| ensures !Above(s[i], x) {
        if i < n { assert s[..n][i] == s[i]; }
      }
    }
    if Spared(s, x) {
      forall i | 0 <= i < n ensures !Above(s[..n][i], x) {}
    }
  }

  /** After cutting some side roots: what is live is what none of them leads to. */
  lemma RemoveAllLive(f: Forest, s: seq<Chunk>, x: Chunk)
    requires Valid(f) && Cuts(f, s)
    ensures InTree(RemoveAll(f, s), x) <==> InTree(f, x) && Spared(s, x)
  {
    if s != [] {
      var n := |s| - 1;
      CutsSpare(f, s);
      SparedSnoc(s, x);
      RemoveAllLive(f, s[..n], s[n]);
      RemoveAllLive(f, s[..n], x);
      InTreeFacts(f, f.head);
      RemoveKidLive(RemoveAll(f, s[..n]), s[n], x);
    }
  }

  lemma RemoveAllValid(f: Forest, s: seq<Chunk>)
    requires Valid(f) && Cuts(f, s)
    ensures Valid(RemoveAll(f, s))
  {
    if s != [] {
      var n := |s| - 1;
      CutsSpare(f, s);
      RemoveAllValid(f, s[..n]);
      RemoveAllLive(f, s[..n], s[n]);
      InTreeFacts(f, f.head);
      RemoveKidValid(RemoveAll(f, s[..n]), s[n]);
    }
  }

  // ------------------------------------------------------------ the result

  /** Dropping a prefix of the eviction order. */
  ghost function SideLeft(f: Forest, order: seq<Chunk>, n: nat): nat
    requires AllNodes(order) && n <= |order|
  {
    |SideNodes(RemoveAll(f, order[..n]))|
  }

  /** What `enforce_side_capacity` leaves: the shortest prefix of the side branches, in
      order, whose removal brings the side chunks within capacity. */
  ghost predicate Evicted(f: Forest, g: Forest, capacity: nat) {
    exists order, n :: EvictedBy(f, g, capacity, order, n)
  }

  ghost predicate EvictedBy(f: Forest, g: Forest, capacity: nat, order: seq<Chunk>, n: nat) {
    && AllNodes(order) && ListsSideRoots(f, order) && Ordered(order) && n <= |order|
    && g == RemoveAll(f, order[..n])
    && |SideNodes(g)| <= capacity
    && forall m :: 0 <= m < n ==> SideLeft(f, order, m) > capacity
  }

  lemma PrefixCuts(f: Forest, order: seq<Chunk>, n: nat)
    requires ListsSideRoots(f, order) && AllNodes(order) && n <= |order|
    ensures Cuts(f, order[..n])
  {
    forall i | 0 <= i < n ensures IsSideRoot(f, order[..n][i]) {
      assert order[i] in order;
    }
  }

  /** Cutting every side root leaves no side chunk: eviction always reaches the bound. */
  lemma CutAllLeavesNone(f: Forest, order: seq<Chunk>)
    requires Valid(f) && AllNodes(order) && ListsSideRoots(f, order)
    ensures SideNodes(RemoveAll(f, order)) == {}
  {
    var g := RemoveAll(f, order);
    assert order[..|order|] == order;
    PrefixCuts(f, order, |order|);
    forall x ensures !(InTree(g, x) && !Above(x, f.head)) {
      RemoveAllLive(f, order, x);
      if InTree(f, x) && !Above(x, f.head) {
        SideChunkNotSpared(f, order, x);
      }
    }
  }

  lemma SideChunkNotSpared(f: Forest, order: seq<Chunk>, x: Chunk)
    requires Valid(f) && ListsSideRoots(f, order) && InTree(f, x) && !Above(x, f.head)
    ensures !Spared(order, x)
  {
    var c := SideRootOf(f, x);
    assert c in order;
  }

  /** Eviction keeps the tree valid, keeps root, head, scheduled root and the whole canonical
      path, and drops only whole side branches. */
  lemma EvictedKeeps(f: Forest, g: Forest, capacity: nat)
    requires Valid(f) && Evicted(f, g, capacity)
    ensures Valid(g) && g.root == f.root && g.head == f.head && g.sched == f.sched && g.disk == f.disk
    ensures g.frozen == f.frozen && g.epoch == f.epoch
    ensures |SideNodes(g)| <= capacity
    ensures forall x :: InTree(g, x) ==> InTree(f, x)
    ensures forall x :: InTree(f, x) && Above(x, f.head) ==> InTree(g, x)
  {
    var order, n :| EvictedBy(f, g, capacity, order, n);
    PrefixCuts(f, order, n);
    RemoveAllValid(f, order[..n]);
    forall x
      ensures InTree(g, x) ==> InTree(f, x)
      ensures InTree(f, x) && Above(x, f.head) ==> InTree(g, x)
    {
      RemoveAllLive(f, order[..n], x);
      if InTree(f, x) && Above(x, f.head) {
        CanonicalSpared(f, order[..n], x);
      }
    }
  }

  lemma CanonicalSpared(f: Forest, s: seq<Chunk>, x: Chunk)
    requires Cuts(f, s) && Above(x, f.head)
    ensures Spared(s, x)
  {
    forall i | 0 <= i < |s| ensures !Above(s[i], x) {
      if Above(s[i], x) { AboveTransitive(s[i], x, f.head); }
    }
  }

  /** Within capacity nothing is dropped. */
  lemma WithinCapacityUnchanged(f: Forest, g: Forest, capacity: nat)
    requires Valid(f) && Evicted(f, g, capacity) && |SideNodes(f)| <= capacity
    ensures g == f
  {
    var order, n :| EvictedBy(f, g, capacity, order, n);
    assert order[..0] == [];
    assert SideLeft(f, order, 0) == |SideNodes(f)|;
    assert n == 0;
  }

  // ------------------------------------------------------------ determinism

  ghost predicate Distinct(s: seq<Chunk>) {
    forall i, j :: 0 <= i < j < |s| ==> s[i] != s[j]
  }

  /** No two chunks of `s` have the same fork choice and hash. */
  ghost predicate NoTies(s: seq<Chunk>) {
    forall i, j :: 0 <= i < |s| && 0 <= j < |s| && Weaker(s[i], s[j]) && Weaker(s[j], s[i]) ==> s[i] == s[j]
  }

  lemma SameFirst(s: seq<Chunk>, t: seq<Chunk>)
    requires Ordered(s) && Ordered(t) && NoTies(s) && s != [] && t != [] && forall c :: c in s <==> c in t
    ensures s[0] == t[0]
  {
    assert s[0] in t && t[0] in s;
    var i :| 0 <= i < |s| && s[i] == t[0];
    var j :| 0 <= j < |t| && t[j] == s[0];
    assert i > 0 ==> Weaker(s[0], s[i]);
    assert j > 0 ==> Weaker(t[0], t[j]);
  }

  lemma RestSame(s: seq<Chunk>, t: seq<Chunk>, c: Chunk)
    requires Distinct(s) && Distinct(t) && s != [] && t != [] && s[0] == t[0] && (c in s <==> c in t)
    ensures c in s[1..] <==> c in t[1..]
  {
    assert s == [s[0]] + s[1..] && t == [t[0]] + t[1..];
    assert c in s[1..] ==> c != s[0];
    assert c in t[1..] ==> c != t[0];
  }

  /** Without ties there is one order. */
  lemma {:induction false} OneOrder(s: seq<Chunk>, t: seq<Chunk>)
    requires Ordered(s) && Ordered(t) && NoTies(s) && Distinct(s) && Distinct(t) && forall c :: c in s <==> c in t
    ensures s == t
    decreases |s|
  {
    assert s != [] ==> s[0] in s;
    assert t != [] ==> t[0] in t;
    if s != [] {
      SameFirst(s, t);
      forall c ensures c in s[1..] <==> c in t[1..] {
        RestSame(s, t, c);
      }
      OneOrder(s[1..], t[1..]);
      assert s == [s[0]] + s[1..] && t == [t[0]] + t[1..];
    }
  }

  /** Eviction is deterministic: when no two side branches tie, every run of it leaves the same
      tree. */
  lemma EvictionDeterministic(f: Forest, g: Forest, h: Forest, capacity: nat)
    requires Evicted(f, g, capacity) && Evicted(f, h, capacity)
    requires forall a, b :: IsSideRoot(f, a) && IsSideRoot(f, b) && Weaker(a, b) && Weaker(b, a) ==> a == b
    ensures g == h
  {
    var order, n :| EvictedBy(f, g, capacity, order, n);
    var other, m :| EvictedBy(f, h, capacity, other, m);
    assert NoTies(order) by {
      assert forall i :: 0 <= i < |order| ==> order[i] in order;
    }
    OneOrder(order, other);
    assert n == m by {
      assert n < m ==> SideLeft(f, order, n) > capacity;
      assert m < n ==> SideLeft(f, order, m) > capacity;
    }
  }

  // ------------------------------------------------------------ who goes

  /** A side branch that is dropped has no higher fork choice than one that stays, and at equal
      fork choice no higher hash. */
  lemma WeakestGo(f: Forest, g: Forest, capacity: nat, gone: Chunk, kept: Chunk)
    requires Valid(f) && Evicted(f, g, capacity)
    requires IsSideRoot(f, gone) && IsSideRoot(f, kept) && !InTree(g, gone) && InTree(g, kept)
    ensures gone.key <= kept.key && (gone.key == kept.key ==> Digest(gone.block) <= Digest(kept.block))
  {
    var order, n :| EvictedBy(f, g, capacity, order, n);
    PrefixCuts(f, order, n);
    assert gone in order && kept in order;
    var i :| 0 <= i < |order| && order[i] == gone;
    var j :| 0 <= j < |order| && order[j] == kept;
    RemoveAllLive(f, order[..n], kept);
    RemoveAllLive(f, order[..n], gone);
    if j < n {
      assert order[..n][j] == kept && Above(kept, kept);
    }
    if i >= n {
      SparedLater(f, order, n, i);
    }
  }

  /** A side root behind the cut is spared by it. */
  lemma SparedLater(f: Forest, order: seq<Chunk>, n: nat, i: nat)
    requires ListsSideRoots(f, order) && n <= i < |order|
    ensures Spared(order[..n], order[i])
  {
    forall k | 0 <= k < n ensures !Above(order[..n][k], order[i]) {
      assert order[k] in order && order[i] in order;
      if Above(order[k], order[i]) { SideRootsApart(f, order[k], order[i]); }
    }
  }

  lemma NoneCut(f: Forest, g: Forest, capacity: nat, order: seq<Chunk>)
    requires EvictedBy(f, g, capacity, order, 0)
    ensures g == f
  {
    assert order[..0] == [];
  }

  /** Putting back the last branch cut. */
  lemma PutBack(f: Forest, order: seq<Chunk>, n: nat, x: Chunk)
    requires Valid(f) && AllNodes(order) && ListsSideRoots(f, order) && 0 < n <= |order|
    ensures InTree(RemoveAll(f, order[..n - 1]), x)
       <==> InTree(f, x) && (InTree(RemoveAll(f, order[..n]), x) || Above(order[n - 1], x))
    ensures InTree(f, order[n - 1]) && !InTree(RemoveAll(f, order[..n]), order[n - 1])
  {
    var s, last := order[..n], order[n - 1];
    assert last in order && s[..n - 1] == order[..n - 1];
    PrefixCuts(f, order, n);
    PrefixCuts(f, order, n - 1);
    CutsSpare(f, s);
    RemoveAllLive(f, s, x);
    RemoveAllLive(f, s[..n - 1], x);
    SparedSnoc(s, x);
    if Above(last, x) { OnlyOneAbove(f, s[..n - 1], last, x); }
    assert Above(last, last);
    RemoveAllLive(f, s, last);
    SparedSnoc(s, last);
  }

  /** Whoever is dropped comes no later in the order than the last branch cut. */
  lemma LastIsStrongest(f: Forest, order: seq<Chunk>, n: nat, c: Chunk)
    requires Valid(f) && AllNodes(order) && ListsSideRoots(f, order) && Ordered(order) && 0 < n <= |order|
    requires IsSideRoot(f, c) && !InTree(RemoveAll(f, order[..n]), c)
    ensures c.key <= order[n - 1].key
    ensures c.key == order[n - 1].key ==> Digest(c.block) <= Digest(order[n - 1].block)
  {
    assert c in order;
    var i :| 0 <= i < |order| && order[i] == c;
    PrefixCuts(f, order, n);
    RemoveAllLive(f, order[..n], c);
    if i >= n { SparedLater(f, order, n, i); }
  }

  /** Nothing is dropped in vain: of the dropped side branches the strongest, put back alone,
      would exceed the capacity. */
  lemma NoneInVain(f: Forest, g: Forest, capacity: nat) returns (last: Chunk, before: Forest)
    requires Valid(f) && Evicted(f, g, capacity) && g != f
    ensures IsSideRoot(f, last) && !InTree(g, last) && |SideNodes(before)| > capacity
    ensures forall x :: InTree(before, x) <==> InTree(f, x) && (InTree(g, x) || Above(last, x))
    ensures forall c :: IsSideRoot(f, c) && !InTree(g, c) ==>
              c.key <= last.key && (c.key == last.key ==> Digest(c.block) <= Digest(last.block))
  {
    var order: seq<Chunk>, n: nat :| EvictedBy(f, g, capacity, order, n);
    if n == 0 {
      NoneCut(f, g, capacity, order);
      assert false;
    }
    last, before := order[n - 1], RemoveAll(f, order[..n - 1]);
    assert last in order && SideLeft(f, order, n - 1) > capacity;
    PutBack(f, order, n, last);
    forall x ensures InTree(before, x) <==> InTree(f, x) && (InTree(g, x) || Above(last, x)) {
      PutBack(f, order, n, x);
    }
    forall c | IsSideRoot(f, c) && !InTree(g, c)
      ensures c.key <= last.key && (c.key == last.key ==> Digest(c.block) <= Digest(last.block))
    {
      LastIsStrongest(f, order, n, c);
    }
  }

  /** A chunk belongs to one side branch only. */
  lemma OnlyOneAbove(f: Forest, s: seq<Chunk>, last: Chunk, x: Chunk)
    requires Cuts(f, s) && IsSideRoot(f, last) && Spared(s, last) && Above(last, x)
    ensures Spared(s, x)
  {
    forall i | 0 <= i < |s| ensures !Above(s[i], x) {
      if Above(s[i], x) {
        AboveComparable(s[i], last, x);
        if Above(last, s[i]) { SideRootsApart(f, last, s[i]); }
      }
    }
  }
}
