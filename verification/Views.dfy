/** When a captured view validates: soundness of validation is proved with the readers, here it
    is shown not to refuse more than it must. */
module Views {
  import opened Blocks
  import opened ForkTree
  import opened SideEviction
  import opened Engine
  import opened EngineInv
  import opened EngineRuns
  import opened Readers
  import ForkChoice
  import Pins

  /** An eviction drops the side branch that `tip` is on. */
  ghost predicate DropsBranch(e: Eng, s: EngineStep, e': Eng, tip: Chunk) {
    s.Evict? && exists x :: IsSideRoot(e.f, x) && !InTree(e'.f, x) && Above(x, tip)
  }

  lemma EvictLive(f: Forest, g: Forest, capacity: nat, tip: Chunk)
    requires Valid(f) && Evicted(f, g, capacity) && InTree(f, tip)
    ensures !InTree(g, tip) <==> exists x :: IsSideRoot(f, x) && !InTree(g, x) && Above(x, tip)
    ensures g.root == f.root
  {
    EvictedKeeps(f, g, capacity);
    if !InTree(g, tip) {
      var order: seq<Chunk>, n: nat :| EvictedBy(f, g, capacity, order, n);
      PrefixCuts(f, order, n);
      RemoveAllLive(f, order[..n], tip);
      var i :| 0 <= i < n && Above(order[..n][i], tip);
      var x := order[i];
      assert order[..n][i] == x && IsSideRoot(f, x) && Above(x, x);
      RemoveAllLive(f, order[..n], x);
      assert !Spared(order[..n], x);
    }
    if x :| IsSideRoot(f, x) && !InTree(g, x) && Above(x, tip) {
      InTreeFacts(f, x);
      if InTree(g, tip) { InTreeAbove(g, x, tip); }
    }
  }

  lemma AttachKeepsLive(e: Eng, s: EngineStep, e': Eng, genesis: Block, window: nat, linear: bool, tip: Chunk)
    requires Valid(e.f) && Step(e, s, e', genesis, window) && InTree(e.f, tip)
    requires if linear then s.LinearAttach? else s.SideAttach? || s.HeadAttach?
    ensures InTree(e'.f, tip) && e'.f.root == e.f.root
  {
    AttachValid(e.f, s.chunk.block.prev, s.chunk, window, linear);
  }

  /** A live chunk stays live exactly when it descends from the new root and no eviction drops
      its branch. */
  lemma LiveStepIff(e: Eng, s: EngineStep, e': Eng, genesis: Block, window: nat, tip: Chunk)
    requires Inv(e, genesis, window) && Step(e, s, e', genesis, window) && !s.CrashAndBoot? && InTree(e.f, tip)
    ensures InTree(e'.f, tip) <==> Above(e'.f.root, tip) && !DropsBranch(e, s, e', tip)
  {
    InTreeFacts(e.f, tip);
    match s
    case SideAttach(c) => AttachKeepsLive(e, s, e', genesis, window, false, tip);
    case HeadAttach(c) => AttachKeepsLive(e, s, e', genesis, window, false, tip);
    case LinearAttach(c) => AttachKeepsLive(e, s, e', genesis, window, true, tip);
    case ReplaySide(c) => AddChildLive(e.f, c);
    case CommitMove => CommitRollValid(e.f, e.queue[0].roll.value);
    case Evict(capacity) => EvictLive(e.f, e'.f, capacity, tip);
    case CrashAndBoot(_, _) =>
    case _ => assert e'.f == e.f;
  }

  /** What is no longer live never comes back. */
  lemma DeadStays(e: Eng, s: EngineStep, e': Eng, genesis: Block, window: nat, c: Chunk)
    requires Inv(e, genesis, window) && Step(e, s, e', genesis, window) && !s.CrashAndBoot?
    requires c in e.f.frozen && InTree(e'.f, c)
    ensures InTree(e.f, c)
  {
    ForkChoice.LiveStep(e, s, e', genesis, window, c);
    if ForkChoice.AttachedBy(s, c) {
      Pins.AttachAdds(e, s, e', genesis, window);
    }
  }

  /** What one step of a run does to `tip`. */
  ghost predicate LiveAt(states: seq<Eng>, steps: seq<EngineStep>, tip: Chunk, k: nat) {
    && k < |steps| && k + 1 < |states|
    && (tip in states[k].f.frozen ==>
          && tip in states[k + 1].f.frozen
          && (InTree(states[k + 1].f, tip) <==> InTree(states[k].f, tip) && KeepsAt(states, steps, tip, k)))
  }

  /** Step `k` neither moves the root off the branch of `tip` nor drops that branch. */
  ghost predicate KeepsAt(states: seq<Eng>, steps: seq<EngineStep>, tip: Chunk, k: nat) {
    && k < |steps| && k + 1 < |states|
    && Above(states[k + 1].f.root, tip) && !DropsBranch(states[k], steps[k], states[k + 1], tip)
  }

  lemma FrozenStays(e: Eng, s: EngineStep, e': Eng, genesis: Block, window: nat, c: Chunk)
    requires Inv(e, genesis, window) && Step(e, s, e', genesis, window) && !s.CrashAndBoot? && c in e.f.frozen
    ensures c in e'.f.frozen
  {
    if Pins.Attaches(s) {
      Pins.AttachAdds(e, s, e', genesis, window);
    } else if s.Evict? {
      EvictedKeeps(e.f, e'.f, s.capacity);
    }
  }

  lemma LiveInRun(states: seq<Eng>, steps: seq<EngineStep>, genesis: Block, window: nat, tip: Chunk, k: nat)
    requires LiveRun(states, steps, genesis, window) && k < |steps|
    ensures LiveAt(states, steps, tip, k)
  {
    RunInv(states, steps, genesis, window, k);
    assert StepAt(states, steps, genesis, window, k);
    if tip in states[k].f.frozen {
      FrozenStays(states[k], steps[k], states[k + 1], genesis, window, tip);
      if InTree(states[k].f, tip) {
        LiveStepIff(states[k], steps[k], states[k + 1], genesis, window, tip);
      } else if InTree(states[k + 1].f, tip) {
        DeadStays(states[k], steps[k], states[k + 1], genesis, window, tip);
      }
    }
  }

  lemma {:induction false} LiveUntil(states: seq<Eng>, steps: seq<EngineStep>, tip: Chunk, a: nat, j: nat)
    requires a <= j < |states| && (forall k :: a <= k < j ==> LiveAt(states, steps, tip, k))
    requires tip in states[a].f.frozen && InTree(states[a].f, tip)
    ensures tip in states[j].f.frozen
    ensures InTree(states[j].f, tip) <==> forall k :: a <= k < j ==> KeepsAt(states, steps, tip, k)
  {
    if a < j {
      LiveUntil(states, steps, tip, a, j - 1);
      assert LiveAt(states, steps, tip, j - 1);
    }
  }

  /** Validation asks whether the tip is live, no less and no more. */
  lemma ViewValidIffLive(states: seq<Eng>, steps: seq<EngineStep>, genesis: Block, window: nat,
                         tip: Block, w: nat, w': nat)
    requires LiveRun(states, steps, genesis, window) && w <= w' < |states|
    ensures ViewValid(states, tip, w, w')
       <==> states[w].available && exists c :: InTree(states[w'].f, c) && c.block == tip
  {
    RunInv(states, steps, genesis, window, w');
    if c :| InTree(states[w'].f, c) && c.block == tip {
      FindComplete(states[w'].f, c);
    }
  }

  /** Some step attaches the block again. */
  predicate AttachesBlock(steps: seq<EngineStep>, b: Block, a: nat, j: nat)
    requires a <= j <= |steps|
  {
    exists k :: a <= k < j && Pins.Attaches(steps[k]) && steps[k].chunk.block == b
  }

  lemma LiveBefore(states: seq<Eng>, steps: seq<EngineStep>, genesis: Block, window: nat, c: Chunk, k: nat)
    requires LiveRun(states, steps, genesis, window) && k < |steps| && InTree(states[k + 1].f, c)
    requires !(Pins.Attaches(steps[k]) && steps[k].chunk.block == c.block)
    ensures InTree(states[k].f, c)
  {
    RunInv(states, steps, genesis, window, k);
    assert StepAt(states, steps, genesis, window, k);
    ForkChoice.LiveStep(states[k], steps[k], states[k + 1], genesis, window, c);
  }

  lemma {:induction false} WasLive(states: seq<Eng>, steps: seq<EngineStep>, genesis: Block, window: nat,
                                   c: Chunk, a: nat, j: nat)
    requires LiveRun(states, steps, genesis, window) && a <= j < |states| && InTree(states[j].f, c)
    requires !AttachesBlock(steps, c.block, a, j)
    ensures InTree(states[a].f, c)
  {
    if a < j {
      LiveBefore(states, steps, genesis, window, c, j - 1);
      WasLive(states, steps, genesis, window, c, a, j - 1);
    }
  }

  /** A captured tip is live exactly while every step since keeps it. */
  lemma CapturedLive(states: seq<Eng>, steps: seq<EngineStep>, genesis: Block, window: nat, tip: Chunk, a: nat, j: nat)
    requires LiveRun(states, steps, genesis, window) && a <= j < |states| && InTree(states[a].f, tip)
    ensures InTree(states[j].f, tip) <==> forall k :: a <= k < j ==> KeepsAt(states, steps, tip, k)
  {
    RunInv(states, steps, genesis, window, a);
    InTreeFacts(states[a].f, tip);
    forall k | a <= k < j ensures LiveAt(states, steps, tip, k) {
      LiveInRun(states, steps, genesis, window, tip, k);
    }
    LiveUntil(states, steps, tip, a, j);
  }

  /** A view captured at `a` validates when the flag is up, no root move since has left its branch
      and no eviction since has dropped it; and only then, unless its block was attached anew. */
  lemma ViewPassesIff(states: seq<Eng>, steps: seq<EngineStep>, genesis: Block, window: nat,
                      tip: Chunk, a: nat, w: nat, w': nat)
    requires LiveRun(states, steps, genesis, window) && a <= w <= w' < |states| && InTree(states[a].f, tip)
    ensures states[w].available && (forall k :: a <= k < w' ==> KeepsAt(states, steps, tip, k)) ==>
              ViewValid(states, tip.block, w, w')
    ensures ViewValid(states, tip.block, w, w') && !AttachesBlock(steps, tip.block, a, w') ==>
              states[w].available && forall k :: a <= k < w' ==> KeepsAt(states, steps, tip, k)
  {
    CapturedLive(states, steps, genesis, window, tip, a, w');
    ViewValidIffLive(states, steps, genesis, window, tip.block, w, w');
    if ViewValid(states, tip.block, w, w') && !AttachesBlock(steps, tip.block, a, w') {
      var c :| InTree(states[w'].f, c) && c.block == tip.block;
      WasLive(states, steps, genesis, window, c, a, w');
      RunInv(states, steps, genesis, window, a);
      InTreeUnique(states[a].f, c, tip);
    }
  }
}
