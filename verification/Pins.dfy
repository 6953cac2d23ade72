/** How long a captured view stays readable: children lists are the only strong links, so a
    view of a tip and a pin on its root holds exactly what the lists between them hold. */
module Pins {
  import opened Blocks
  import opened ForkTree
  import opened SideEviction
  import opened Engine
  import opened EngineRuns
  import opened Readers

  /** Kept alive by a held chunk: reached from it through children lists. */
  predicate Kept(f: Forest, held: set<Chunk>, c: Chunk) {
    c in held || (Listed(f, c) && Kept(f, held, c.parent))
  }

  predicate Listed(f: Forest, c: Chunk) {
    c.Node? && c in Kids(f, c.parent)
  }

  /** Strictly between the pin and the tip. */
  predicate Inner(pin: Chunk, tip: Chunk, c: Chunk) {
    Above(pin, c) && Above(c, tip) && c != pin && c != tip
  }

  /** No chunk the view needs has lost its place in its parent's list. */
  ghost predicate Readable(f: Forest, pin: Chunk, tip: Chunk) {
    forall c :: Inner(pin, tip, c) ==> Listed(f, c)
  }

  /** In a readable view no weak parent link has expired. */
  lemma ReadableKeeps(f: Forest, pin: Chunk, tip: Chunk, c: Chunk)
    requires Readable(f, pin, tip) && Above(pin, c) && Above(c, tip)
    ensures Kept(f, {pin, tip}, c)
  {
    if c != pin && c != tip {
      assert Inner(pin, tip, c);
      AboveTransitive(c.parent, c, tip);
      ReadableKeeps(f, pin, tip, c.parent);
    }
  }

  lemma RemoveKidKids(f: Forest, c: Chunk, x: Chunk)
    requires c.Node? && x.Node?
    ensures Listed(RemoveKid(f, c), x) <==> Listed(f, x) && x != c
  {
  }

  lemma {:induction false} RemoveAllKids(f: Forest, s: seq<Chunk>, x: Chunk)
    requires AllNodes(s) && x.Node?
    ensures Listed(RemoveAll(f, s), x) <==> Listed(f, x) && x !in s
  {
    if s != [] {
      var n := |s| - 1;
      RemoveAllKids(f, s[..n], x);
      RemoveKidKids(RemoveAll(f, s[..n]), s[n], x);
      assert s == s[..n] + [s[n]];
    }
  }

  /** Eviction takes a chunk from its parent's list exactly when it drops that side branch. */
  lemma EvictedKids(f: Forest, g: Forest, capacity: nat, x: Chunk)
    requires Valid(f) && Evicted(f, g, capacity) && x.Node?
    ensures Listed(g, x) ==> Listed(f, x)
    ensures Listed(f, x) && !Listed(g, x) ==> IsSideRoot(f, x) && !InTree(g, x)
  {
    var order, n :| EvictedBy(f, g, capacity, order, n);
    PrefixCuts(f, order, n);
    RemoveAllKids(f, order[..n], x);
    RemoveAllLive(f, order[..n], x);
    if x in order[..n] {
      var i :| 0 <= i < n && order[..n][i] == x;
      assert Above(x, x);
    }
  }

  /** `s` is an eviction that drops the side branch starting at `x`. */
  ghost predicate Drops(e: Eng, s: EngineStep, e': Eng, x: Chunk) {
    s.Evict? && IsSideRoot(e.f, x) && !Listed(e'.f, x)
  }

  /** Only eviction detaches, and what is detached stays so. */
  lemma ListsStep(e: Eng, s: EngineStep, e': Eng, genesis: Block, window: nat, x: Chunk)
    requires Inv(e, genesis, window) && Step(e, s, e', genesis, window) && !s.CrashAndBoot?
    requires x.Node? && x in e.f.frozen
    ensures x in e'.f.frozen
    ensures Listed(e'.f, x) <==> Listed(e.f, x) && !Drops(e, s, e', x)
  {
    if s.Evict? {
      EvictedKeeps(e.f, e'.f, s.capacity);
      EvictedKids(e.f, e'.f, s.capacity, x);
    } else {
      ListsGrow(e, s, e', genesis, window, x);
    }
  }

  predicate Attaches(s: EngineStep) {
    s.SideAttach? || s.HeadAttach? || s.LinearAttach? || s.ReplaySide?
  }

  /** An attach adds one child, which was not frozen before. */
  lemma AttachAdds(e: Eng, s: EngineStep, e': Eng, genesis: Block, window: nat)
    requires Valid(e.f) && Step(e, s, e', genesis, window) && Attaches(s)
    ensures s.chunk.Node? && s.chunk !in e.f.frozen && e'.f.disk == e.f.disk
    ensures e'.f.kids == AddChild(e.f, s.chunk).kids && e'.f.frozen == AddChild(e.f, s.chunk).frozen
  {
  }

  lemma AddChildLists(f: Forest, c: Chunk, x: Chunk)
    requires c.Node? && c !in f.frozen && x.Node? && x in f.frozen
    ensures Listed(AddChild(f, c), x) <==> Listed(f, x)
  {
  }

  lemma ListsGrow(e: Eng, s: EngineStep, e': Eng, genesis: Block, window: nat, x: Chunk)
    requires Valid(e.f) && Step(e, s, e', genesis, window) && !s.CrashAndBoot? && !s.Evict?
    requires x.Node? && x in e.f.frozen
    ensures x in e'.f.frozen && (Listed(e'.f, x) <==> Listed(e.f, x))
  {
    if Attaches(s) {
      AttachAdds(e, s, e', genesis, window);
      AddChildLists(e.f, s.chunk, x);
    } else {
      assert e'.f.kids == e.f.kids && e'.f.frozen == e.f.frozen;
    }
  }

  ghost predicate DropsAt(states: seq<Eng>, steps: seq<EngineStep>, k: nat, x: Chunk) {
    k < |steps| && k + 1 < |states| && Drops(states[k], steps[k], states[k + 1], x)
  }

  /** What one step of a run does to the place of `x`. */
  ghost predicate ListsAt(states: seq<Eng>, steps: seq<EngineStep>, k: nat, x: Chunk) {
    && k < |steps| && k + 1 < |states|
    && (x in states[k].f.frozen ==>
          && x in states[k + 1].f.frozen
          && (Listed(states[k + 1].f, x) <==> Listed(states[k].f, x) && !DropsAt(states, steps, k, x)))
  }

  lemma ListsInRun(states: seq<Eng>, steps: seq<EngineStep>, genesis: Block, window: nat, k: nat, x: Chunk)
    requires LiveRun(states, steps, genesis, window) && k < |steps| && x.Node?
    ensures ListsAt(states, steps, k, x)
  {
    RunInv(states, steps, genesis, window, k);
    assert StepAt(states, steps, genesis, window, k);
    if x in states[k].f.frozen {
      ListsStep(states[k], steps[k], states[k + 1], genesis, window, x);
    }
  }

  lemma {:induction false} StaysListed(states: seq<Eng>, steps: seq<EngineStep>, a: nat, j: nat, x: Chunk)
    requires a <= j < |states| && (forall k :: a <= k < j ==> ListsAt(states, steps, k, x))
    requires x in states[a].f.frozen && Listed(states[a].f, x)
    ensures x in states[j].f.frozen
    ensures Listed(states[j].f, x) <==> forall k :: a <= k < j ==> !DropsAt(states, steps, k, x)
  {
    if a < j {
      StaysListed(states, steps, a, j - 1, x);
      assert ListsAt(states, steps, j - 1, x);
    }
  }

  lemma CapturedListed(f: Forest, tip: Chunk, x: Chunk)
    requires Valid(f) && InTree(f, tip) && Inner(f.root, tip, x)
    ensures x.Node? && x in f.frozen && Listed(f, x)
  {
    InTreeAbove(f, x, tip);
    InTreeFacts(f, x);
  }

  lemma ListedUnlessDropped(states: seq<Eng>, steps: seq<EngineStep>, genesis: Block, window: nat,
                              tip: Chunk, a: nat, j: nat, x: Chunk)
    requires LiveRun(states, steps, genesis, window) && a <= j < |states| && InTree(states[a].f, tip)
    requires Inner(states[a].f.root, tip, x)
    ensures Listed(states[j].f, x) <==> forall k :: a <= k < j ==> !DropsAt(states, steps, k, x)
  {
    RunInv(states, steps, genesis, window, a);
    CapturedListed(states[a].f, tip, x);
    forall k | a <= k < j ensures ListsAt(states, steps, k, x) {
      ListsInRun(states, steps, genesis, window, k, x);
    }
    StaysListed(states, steps, a, j, x);
  }

  /** A view captured at `a` with its root pinned stays readable through root moves, reorgs
      and attaches: it is readable at `j` exactly when no eviction since has dropped a side
      branch that starts strictly between the pin and the tip. */
  lemma ReadableIff(states: seq<Eng>, steps: seq<EngineStep>, genesis: Block, window: nat, tip: Chunk, a: nat, j: nat)
    requires LiveRun(states, steps, genesis, window) && a <= j < |states| && InTree(states[a].f, tip)
    ensures var pin := states[a].f.root;
            Readable(states[j].f, pin, tip) <==>
            forall k, x :: a <= k < j && Inner(pin, tip, x) ==> !DropsAt(states, steps, k, x)
  {
    var pin := states[a].f.root;
    forall x | Inner(pin, tip, x)
      ensures Listed(states[j].f, x) <==> forall k :: a <= k < j ==> !DropsAt(states, steps, k, x)
    {
      ListedUnlessDropped(states, steps, genesis, window, tip, a, j, x);
    }
  }

  lemma DiskGrowsStep(e: Eng, s: EngineStep, e': Eng, genesis: Block, window: nat)
    requires Valid(e.f) && Step(e, s, e', genesis, window) && !s.CrashAndBoot?
    ensures e.f.disk <= e'.f.disk
  {
    if s.Evict? {
      EvictedKeeps(e.f, e'.f, s.capacity);
    } else if Attaches(s) {
      AttachAdds(e, s, e', genesis, window);
    }
  }

  ghost predicate DiskGrowsAt(states: seq<Eng>, k: nat) {
    k + 1 < |states| && states[k].f.disk <= states[k + 1].f.disk
  }

  lemma DiskGrows(states: seq<Eng>, steps: seq<EngineStep>, genesis: Block, window: nat, k: nat)
    requires LiveRun(states, steps, genesis, window) && k < |steps|
    ensures DiskGrowsAt(states, k)
  {
    RunInv(states, steps, genesis, window, k);
    assert StepAt(states, steps, genesis, window, k);
    DiskGrowsStep(states[k], steps[k], states[k + 1], genesis, window);
  }

  lemma {:induction false} StaysOnDisk(states: seq<Eng>, a: nat, j: nat, c: Chunk)
    requires a <= j < |states| && c in states[a].f.disk && forall k :: a <= k < j ==> DiskGrowsAt(states, k)
    ensures c in states[j].f.disk
  {
    if a < j {
      StaysOnDisk(states, a, j - 1, c);
      assert DiskGrowsAt(states, j - 1);
    }
  }

  /** A lookup never follows a parent link past the pin: whenever it may go on from `c`, the
      parent is still at or below the pin. With `ReadableKeeps`, no link it follows has expired. */
  lemma LookupStaysPinned(states: seq<Eng>, steps: seq<EngineStep>, genesis: Block, window: nat,
                          tip: Chunk, a: nat, j: nat, c: Chunk)
    requires LiveRun(states, steps, genesis, window) && a <= j < |states|
    requires Above(states[a].f.root, c) && Above(c, tip) && ParentOf(states[j].f, c).Some?
    ensures Above(states[a].f.root, c.parent) && Above(c.parent, tip)
  {
    RunInv(states, steps, genesis, window, a);
    forall k | a <= k < j ensures DiskGrowsAt(states, k) {
      DiskGrows(states, steps, genesis, window, k);
    }
    StaysOnDisk(states, a, j, states[a].f.root);
    AboveTransitive(c.parent, c, tip);
  }

  lemma SideGone(f: Forest, g: Forest, x: Chunk)
    requires g.head == f.head && !Above(x, f.head) && |SideNodes(g)| == 0
    ensures !InTree(g, x)
  {
    if InTree(g, x) {
      InTreeAll(g, x);
    }
    assert x !in SideNodes(g);
  }

  /** The failing family is not empty: with no side capacity every view whose parent is off
      the canonical path stops being readable, pin or no pin. */
  lemma NoCapacityNoSideView(f: Forest, g: Forest, tip: Chunk)
    requires Valid(f) && Evicted(f, g, 0) && InTree(f, tip) && tip.Node? && tip != f.root
    requires InTree(f, tip.parent) && !Above(tip.parent, f.head)
    ensures !Readable(g, f.root, tip)
  {
    var x := SideRootOf(f, tip.parent);
    InTreeFacts(f, x);
    InTreeFacts(f, f.head);
    AboveTransitive(x, tip.parent, tip);
    NoCycle(tip, x);
    EvictedKeeps(f, g, 0);
    SideGone(f, g, x);
    InTreeAbove(f, x.parent, f.head);
    assert InTree(g, x.parent);
    assert Inner(f.root, tip, x);
  }
}
