/** Lock-free readers: a view captured from the tree, read while roots move under it, and
    validated afterwards. */
module Readers {
  import opened Options
  import opened Blocks
  import opened ForkTree
  import opened StateView
  import opened SideEviction
  import opened Engine
  import opened EngineInv
  import opened EngineRuns

  /** A run of one process: a crash ends every reader with it. */
  ghost predicate LiveRun(states: seq<Eng>, steps: seq<EngineStep>, genesis: Block, window: nat) {
    && Run(states, steps, genesis, window) && states[0] in Sound(genesis, window)
    && forall i :: 0 <= i < |steps| ==> !steps[i].CrashAndBoot?
  }

  // ------------------------------------------------------------ one read

  /** A lookup of `k` that reaches chunk `c` at time `t` and has ended with `v` by time `u`.
      Layers never change; the source of each chunk is read at some later moment, and the
      disk at some moment after that, with any engine steps in between. */
  ghost predicate Walk(states: seq<Eng>, c: Chunk, k: StateKey, t: nat, u: nat, v: Option<Cell>)
    decreases c, 1
  {
    && t <= u < |states|
    && if k in Layer(c) then v == Layer(c)[k]
       else exists s | t <= s <= u :: WalkOn(states, c, k, s, u, v)
  }

  ghost predicate WalkOn(states: seq<Eng>, c: Chunk, k: StateKey, s: nat, u: nat, v: Option<Cell>)
    requires s <= u < |states|
    decreases c, 0
  {
    if c.RootChunk? || c in states[s].f.disk then exists r :: s <= r <= u && v == Get(states[r].db, k)
    else Walk(states, c.parent, k, s, u, v)
  }

  /** The disk is a usable base for a view of `tip`: it holds an ancestor's state, and every
      disk-backed chunk is at or below that ancestor. */
  ghost predicate Usable(e: Eng, tip: Block) {
    && Holds(e.db, Reached(e)) && AncEq(Reached(e), tip)
    && forall d :: d in e.f.disk ==> AncEq(d.block, Reached(e))
  }

  /** No block above `b` on the branch of `tip` changes `k`. */
  ghost predicate Unwritten(b: Block, tip: Block, k: StateKey) {
    forall x :: AncEq(b, x) && AncEq(x, tip) ==> Value(x, k) == Value(tip, k)
  }

  lemma UnwrittenDown(c: Chunk, tip: Block, k: StateKey)
    requires WellLinked(c) && c.Node? && AncEq(c.block, tip) && k !in Layer(c) && Unwritten(c.block, tip, k)
    ensures Unwritten(c.parent.block, tip, k) && AncEq(c.parent.block, tip)
  {
    AncEqTransitive(c.parent.block, c.block, tip);
    forall x | AncEq(c.parent.block, x) && AncEq(x, tip) ensures Value(x, k) == Value(tip, k) {
      AncEqComparable(c.block, x, tip);
      if !AncEq(c.block, x) {
        Between(x, c.block);
      }
    }
  }

  /** Between a block and its predecessor lies nothing. */
  lemma Between(x: Block, b: Block)
    requires b.Child? && AncEq(b.prev, x) && AncEq(x, b)
    ensures x == b || x == b.prev
  {
    if x != b {
      AncEqAntisymmetric(x, b.prev);
    }
  }

  lemma AncEqAntisymmetric(a: Block, b: Block)
    requires AncEq(a, b) && AncEq(b, a)
    ensures a == b
  {
    AncEqSize(a, b);
    AncEqSize(b, a);
  }

  function Length(b: Block): nat {
    if b.Genesis? then 0 else 1 + Length(b.prev)
  }

  lemma AncEqSize(a: Block, b: Block)
    requires AncEq(a, b)
    ensures a == b || Length(a) < Length(b)
  {
  }

  /** From `t` to `u` the disk only moves up the branch of `tip`. */
  ghost predicate UsableThroughout(states: seq<Eng>, tip: Block, t: nat, u: nat) {
    && u < |states|
    && (forall i :: t <= i <= u ==> Usable(states[i], tip))
    && (forall i, j :: t <= i <= j <= u ==> AncEq(Reached(states[i]), Reached(states[j])))
  }

  /** A walk on a disk that stays on the view's branch reads the state of the view's tip. */
  lemma {:induction false} WalkReadsState(states: seq<Eng>, c: Chunk, tip: Block, name: seq<nat>, t: nat, u: nat,
                                          v: Option<Cell>)
    requires Walk(states, c, Business(name), t, u, v) && UsableThroughout(states, tip, t, u)
    requires WellLinked(c) && AncEq(c.block, tip) && Unwritten(c.block, tip, Business(name))
    requires forall d :: Above(d, c) && d.RootChunk? ==> AncEq(d.block, Reached(states[t]))
    ensures v == Value(tip, Business(name))
    decreases c
  {
    var k := Business(name);
    if k in Layer(c) {
      assert v == Value(c.block, k);
    } else {
      var s :| t <= s <= u && WalkOn(states, c, k, s, u, v);
      if c.RootChunk? || c in states[s].f.disk {
        var r :| s <= r <= u && v == Get(states[r].db, k);
        assert Usable(states[s], tip) && Usable(states[r], tip);
        assert AncEq(c.block, Reached(states[s])) by {
          if c.RootChunk? {
            assert Above(c, c);
            AncEqTransitive(c.block, Reached(states[t]), Reached(states[s]));
          }
        }
        AncEqTransitive(c.block, Reached(states[s]), Reached(states[r]));
      } else {
        UnwrittenDown(c, tip, k);
        forall d | Above(d, c.parent) && d.RootChunk? ensures AncEq(d.block, Reached(states[s])) {
          assert Above(d, c);
          AncEqTransitive(d.block, Reached(states[t]), Reached(states[s]));
        }
        WalkReadsState(states, c.parent, tip, name, s, u, v);
      }
    }
  }

  // ------------------------------------------------------------ what root moves do to the disk

  /** The front roll leads up from the root. */
  lemma FrontClimbs(e: Eng, genesis: Block, window: nat)
    requires Inv(e, genesis, window) && !e.stage.Committed? && e.queue != [] && e.queue[0].roll.Some?
    ensures AncEq(e.f.root.block, e.queue[0].roll.value.newRoot.block)
  {
    FrontRollValid(e.f, e.queue);
    var n := e.queue[0].roll.value.newRoot;
    InTreeAbove(e.f, n, e.f.head);
    InTreeFacts(e.f, n);
  }

  /** Root moves only climb: disk and root follow the canonical branch. */
  lemma ReachedClimbs(e: Eng, s: EngineStep, e': Eng, genesis: Block, window: nat)
    requires Inv(e, genesis, window) && Step(e, s, e', genesis, window) && !s.CrashAndBoot?
    ensures AncEq(Reached(e), Reached(e')) && AncEq(e.f.root.block, e'.f.root.block)
  {
    match s
    case BatchWrite => FrontClimbs(e, genesis, window);
    case CommitMove => FrontClimbs(e, genesis, window);
    case HeadAttach(c) => AttachShape(e.f, c, window, false);
    case LinearAttach(c) => LinearStays(e, c, e', genesis, window);
    case Evict(capacity) => EvictedKeeps(e.f, e'.f, capacity);
    case _ =>
  }

  lemma LinearStays(e: Eng, c: Chunk, e': Eng, genesis: Block, window: nat)
    requires Inv(e, genesis, window) && Step(e, LinearAttach(c), e', genesis, window)
    ensures Reached(e') == Reached(e) && e'.f.root == e.f.root
  {
    var j := LinearExtends(e, c, e', genesis, window);
    LinearSame(e, j, e');
  }

  ghost predicate Climb(e: Eng, e': Eng) {
    AncEq(Reached(e), Reached(e')) && AncEq(e.f.root.block, e'.f.root.block)
  }

  lemma ClimbTransitive(a: Eng, b: Eng, c: Eng)
    requires Climb(a, b) && Climb(b, c)
    ensures Climb(a, c)
  {
    AncEqTransitive(Reached(a), Reached(b), Reached(c));
    AncEqTransitive(a.f.root.block, b.f.root.block, c.f.root.block);
  }

  lemma {:induction false} ClimbsFar(states: seq<Eng>, i: nat, j: nat)
    requires i <= j < |states| && forall k, l :: i <= k < j && l == k + 1 ==> Climb(states[k], states[l])
    ensures Climb(states[i], states[j])
  {
    if i < j {
      ClimbsFar(states, i, j - 1);
      ClimbTransitive(states[i], states[j - 1], states[j]);
    }
  }

  lemma ClimbAt(states: seq<Eng>, steps: seq<EngineStep>, genesis: Block, window: nat, i: nat)
    requires LiveRun(states, steps, genesis, window) && i < |steps|
    ensures Climb(states[i], states[i + 1])
  {
    RunInv(states, steps, genesis, window, i);
    assert StepAt(states, steps, genesis, window, i);
    ReachedClimbs(states[i], steps[i], states[i + 1], genesis, window);
  }

  lemma Climbs(states: seq<Eng>, steps: seq<EngineStep>, genesis: Block, window: nat, i: nat, j: nat)
    requires LiveRun(states, steps, genesis, window) && i <= j < |states|
    ensures AncEq(Reached(states[i]), Reached(states[j])) && AncEq(states[i].f.root.block, states[j].f.root.block)
  {
    forall k, l | i <= k < j && l == k + 1 ensures Climb(states[k], states[l]) {
      ClimbAt(states, steps, genesis, window, k);
    }
    ClimbsFar(states, i, j);
  }

  lemma SoundDisk(e: Eng, tip: Block, genesis: Block, window: nat)
    requires Inv(e, genesis, window) && AncEq(Reached(e), tip)
    ensures Usable(e, tip)
  {
    if e.stage.Written? {
      FrontRollValid(e.f, e.queue);
      var n := e.queue[0].roll.value.newRoot;
      InTreeAbove(e.f, n, e.f.head);
      InTreeFacts(e.f, n);
    }
    forall d | d in e.f.disk ensures AncEq(d.block, Reached(e)) {
      AncEqTransitive(d.block, e.f.root.block, Reached(e));
    }
  }

  /** If the disk is on the branch of `tip` at time `u`, it was at every time before. */
  lemma UsableBefore(states: seq<Eng>, steps: seq<EngineStep>, genesis: Block, window: nat, tip: Block, t: nat, u: nat)
    requires LiveRun(states, steps, genesis, window) && t <= u < |states| && AncEq(Reached(states[u]), tip)
    ensures UsableThroughout(states, tip, t, u)
  {
    forall i | t <= i <= u ensures Usable(states[i], tip) {
      RunInv(states, steps, genesis, window, i);
      Climbs(states, steps, genesis, window, i, u);
      AncEqTransitive(Reached(states[i]), Reached(states[u]), tip);
      SoundDisk(states[i], tip, genesis, window);
    }
    forall i, j | t <= i <= j <= u ensures AncEq(Reached(states[i]), Reached(states[j])) {
      Climbs(states, steps, genesis, window, i, j);
    }
  }

  // ------------------------------------------------------------ validation

  /** `validate_state_view`: the flag is loaded first, the tree is asked later. */
  ghost predicate ViewValid(states: seq<Eng>, tip: Block, w: nat, w': nat) {
    w <= w' < |states| && states[w].available && Find(states[w'].f, tip).Some?
  }

  /** `validate_optimistic` against the epoch captured with the head. */
  ghost predicate EpochValid(states: seq<Eng>, epoch: nat, w: nat, w': nat) {
    w <= w' < |states| && states[w].available && states[w'].f.epoch == epoch
  }

  /** A passed validation means the disk had not left the tip's branch when the flag was read. */
  lemma ValidationSeesBranch(states: seq<Eng>, steps: seq<EngineStep>, genesis: Block, window: nat, tip: Block,
                             w: nat, w': nat)
    requires LiveRun(states, steps, genesis, window) && ViewValid(states, tip, w, w')
    ensures AncEq(Reached(states[w]), tip)
  {
    RunInv(states, steps, genesis, window, w);
    RunInv(states, steps, genesis, window, w');
    Climbs(states, steps, genesis, window, w, w');
    InTreeFacts(states[w'].f, Find(states[w'].f, tip).value);
    AncEqTransitive(states[w].f.root.block, states[w'].f.root.block, tip);
  }

  lemma CapturedTip(e: Eng, tip: Chunk, genesis: Block, window: nat)
    requires Inv(e, genesis, window) && InTree(e.f, tip)
    ensures WellLinked(tip) && Linked(tip.block)
    ensures forall d :: Above(d, tip) && d.RootChunk? ==> AncEq(d.block, Reached(e))
  {
    InTreeFacts(e.f, tip);
    ReachedBelowTip(e, genesis, window);
    RootReached(e, genesis, window);
    LiveDiskAbove(e.f, tip, Reached(e));
  }

  lemma RootReached(e: Eng, genesis: Block, window: nat)
    requires Inv(e, genesis, window)
    ensures AncEq(e.f.root.block, Reached(e))
  {
    if e.stage.Written? {
      FrontRollValid(e.f, e.queue);
      var n := e.queue[0].roll.value.newRoot;
      InTreeAbove(e.f, n, e.f.head);
      InTreeFacts(e.f, n);
    }
  }

  /** Reader validation is sound: a view captured at `a`, a lookup made of steps anywhere
      between capture and validation, a validation that passes: the value read is the state
      of the captured tip, wherever the lookup fell relative to root moves. */
  lemma ValidatedReadIsTipState(states: seq<Eng>, steps: seq<EngineStep>, genesis: Block, window: nat,
                                tip: Chunk, name: seq<nat>, v: Option<Cell>, a: nat, u: nat, w: nat, w': nat)
    requires LiveRun(states, steps, genesis, window) && a <= u <= w <= w' < |states|
    requires ViewValid(states, tip.block, w, w')
    requires InTree(states[a].f, tip) && Walk(states, tip, Business(name), a, u, v)
    ensures v == Value(tip.block, Business(name))
  {
    ValidationSeesBranch(states, steps, genesis, window, tip.block, w, w');
    Climbs(states, steps, genesis, window, u, w);
    AncEqTransitive(Reached(states[u]), Reached(states[w]), tip.block);
    UsableBefore(states, steps, genesis, window, tip.block, a, u);
    RunInv(states, steps, genesis, window, a);
    CapturedTip(states[a], tip, genesis, window);
    forall x | AncEq(tip.block, x) && AncEq(x, tip.block)
      ensures Value(x, Business(name)) == Value(tip.block, Business(name))
    {
      AncEqAntisymmetric(x, tip.block);
    }
    WalkReadsState(states, tip, tip.block, name, a, u, v);
  }

  // ------------------------------------------------------------ epochs

  predicate MovesHead(s: EngineStep) { s.HeadAttach? || s.LinearAttach? }

  /** How often the head moved in steps `i..j`. */
  function HeadMoves(steps: seq<EngineStep>, i: nat, j: nat): nat
    requires i <= j <= |steps|
  {
    if i == j then 0 else HeadMoves(steps, i, j - 1) + (if MovesHead(steps[j - 1]) then 1 else 0)
  }

  function EpochAfter(epoch: nat, n: nat): nat {
    if n == 0 then epoch else NextEpoch(EpochAfter(epoch, n - 1))
  }

  /** Wrapping increments count modulo 2^64. */
  lemma EpochWraps(epoch: nat, n: nat)
    requires epoch < U64
    ensures EpochAfter(epoch, n) == (epoch + n) % U64
  {
  }

  lemma EpochReturns(epoch: nat, n: nat)
    requires epoch < U64
    ensures EpochAfter(epoch, n) == epoch <==> n % U64 == 0
  {
    EpochWraps(epoch, n);
  }

  /** What a step does to head and epoch. */
  predicate EpochMoves(e: Eng, s: EngineStep, e': Eng) {
    if MovesHead(s) then e'.f.epoch == NextEpoch(e.f.epoch) else e'.f.epoch == e.f.epoch && e'.f.head == e.f.head
  }

  lemma EpochStep(e: Eng, s: EngineStep, e': Eng, genesis: Block, window: nat)
    requires Inv(e, genesis, window) && Step(e, s, e', genesis, window) && !s.CrashAndBoot?
    ensures EpochMoves(e, s, e')
  {
    if s.Evict? {
      EvictedKeeps(e.f, e'.f, s.capacity);
    }
  }

  ghost predicate EpochMovesAt(states: seq<Eng>, steps: seq<EngineStep>, i: nat) {
    i < |steps| && i + 1 < |states| && EpochMoves(states[i], steps[i], states[i + 1])
  }

  lemma EpochAt(states: seq<Eng>, steps: seq<EngineStep>, genesis: Block, window: nat, i: nat)
    requires LiveRun(states, steps, genesis, window) && i < |steps|
    ensures EpochMovesAt(states, steps, i)
  {
    RunInv(states, steps, genesis, window, i);
    assert StepAt(states, steps, genesis, window, i);
    EpochStep(states[i], steps[i], states[i + 1], genesis, window);
  }

  lemma {:induction false} EpochCounts(states: seq<Eng>, steps: seq<EngineStep>, i: nat, j: nat)
    requires i <= j < |states| && j <= |steps| && forall k :: i <= k < j ==> EpochMovesAt(states, steps, k)
    ensures states[j].f.epoch == EpochAfter(states[i].f.epoch, HeadMoves(steps, i, j))
    ensures HeadMoves(steps, i, j) == 0 ==> states[j].f.head == states[i].f.head
  {
    if i < j {
      EpochCounts(states, steps, i, j - 1);
      assert EpochMovesAt(states, steps, j - 1);
    }
  }

  lemma EpochBound(states: seq<Eng>, steps: seq<EngineStep>, genesis: Block, window: nat, i: nat)
    requires LiveRun(states, steps, genesis, window) && i < |states|
    ensures states[i].f.epoch < U64
  {
    RunInv(states, steps, genesis, window, i);
  }

  /** An unchanged epoch means an unchanged head, unless the head moved a multiple of 2^64
      times, at least once, in between. */
  lemma EpochSeesHead(states: seq<Eng>, steps: seq<EngineStep>, genesis: Block, window: nat, i: nat, j: nat)
    requires LiveRun(states, steps, genesis, window) && i <= j < |states|
    ensures states[j].f.epoch == states[i].f.epoch <==> HeadMoves(steps, i, j) % U64 == 0
    ensures states[j].f.epoch == states[i].f.epoch && HeadMoves(steps, i, j) < U64 ==>
            states[j].f.head == states[i].f.head
  {
    EpochBound(states, steps, genesis, window, i);
    forall k | i <= k < j ensures EpochMovesAt(states, steps, k) {
      EpochAt(states, steps, genesis, window, k);
    }
    EpochCounts(states, steps, i, j);
    EpochReturns(states[i].f.epoch, HeadMoves(steps, i, j));
  }

  /** Optimistic readers: the head captured with its epoch, any lookups, the same epoch at
      the end and fewer than 2^64 head moves: every value is the captured head's state. */
  lemma OptimisticReadIsHeadState(states: seq<Eng>, steps: seq<EngineStep>, genesis: Block, window: nat,
                                  name: seq<nat>, v: Option<Cell>, a: nat, u: nat, w: nat, w': nat)
    requires LiveRun(states, steps, genesis, window) && a <= u <= w <= w' < |states|
    requires EpochValid(states, states[a].f.epoch, w, w') && HeadMoves(steps, a, w') < U64
    requires Walk(states, states[a].f.head, Business(name), a, u, v)
    ensures v == Value(states[a].f.head.block, Business(name))
  {
    EpochSeesHead(states, steps, genesis, window, a, w');
    RunInv(states, steps, genesis, window, a);
    RunInv(states, steps, genesis, window, w');
    FindComplete(states[w'].f, states[w'].f.head);
    ValidatedReadIsTipState(states, steps, genesis, window, states[a].f.head, name, v, a, u, w, w');
  }
}
