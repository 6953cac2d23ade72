/** How far an insert moves the root, and what it leaves open to a reorg. */
module RollPolicy {
  import opened Options
  import opened Blocks
  import opened ForkTree
  import opened SideEviction
  import opened Engine
  import opened EngineInv
  import opened EngineRuns
  import EngineOps

  /** An attach that becomes head rolls exactly when it would leave the window. A strict roll
      moves the scheduled root by one block and leaves the head a full window above it; a
      linear roll moves it by a whole window. */
  lemma RollMovesBy(f: Forest, chunk: Chunk, window: nat, linear: bool)
    requires TreeOk(f, window) && Opened(chunk) && InRange(f, HeightOf(chunk)) && Serialized(f, chunk, linear)
    requires var r := Attach(f, chunk.block.prev, chunk, window, linear); r.Attached? && r.inserted.isHead
    ensures var r := Attach(f, chunk.block.prev, chunk, window, linear);
            var from, to := HeightOf(f.sched), HeightOf(r.forest.sched);
            && (r.inserted.roll.Some? ==> r.inserted.roll.value.newRoot == r.forest.sched)
            && (r.inserted.roll.None? ==> r.forest.sched == f.sched)
            && (!linear ==> && (r.inserted.roll.Some? <==> HeightOf(chunk) > from + window)
                            && (r.inserted.roll.Some? ==> to == from + 1 && HeightOf(chunk) == to + window))
            && (linear ==> && (r.inserted.roll.Some? <==> HeightOf(chunk) >= from + window)
                           && (r.inserted.roll.Some? ==> to == from + window))
  {
    AttachShape(f, chunk, window, linear);
    SchedBelow(f, chunk, window, linear);
  }

  // ------------------------------------------------------------ strict runs

  /** Every insert is strict and nothing crashes. */
  predicate Strict(steps: seq<EngineStep>) {
    forall i :: 0 <= i < |steps| ==> !steps[i].LinearAttach? && !steps[i].CrashAndBoot?
  }

  /** The highest head among the first `n` states. */
  function TopHead(states: seq<Eng>, n: nat): (h: nat)
    requires 0 < n <= |states|
    ensures forall i :: 0 <= i < n ==> HeightOf(states[i].f.head) <= h
    ensures exists i :: 0 <= i < n && HeightOf(states[i].f.head) == h
  {
    var last := HeightOf(states[n - 1].f.head);
    if n == 1 then last
    else
      var rest := TopHead(states, n - 1);
      if last > rest then last else rest
  }

  /** What a strict step does to the scheduled root. */
  ghost predicate SchedMoves(e: Eng, e': Eng, window: nat) {
    e'.f.sched == e.f.sched || HeightOf(e'.f.head) == HeightOf(e'.f.sched) + window
  }

  lemma StrictStep(e: Eng, s: EngineStep, e': Eng, genesis: Block, window: nat)
    requires Inv(e, genesis, window) && Step(e, s, e', genesis, window) && !s.LinearAttach? && !s.CrashAndBoot?
    ensures SchedMoves(e, e', window)
  {
    match s
    case HeadAttach(c) => HeadMoves(e, c, e', genesis, window);
    case Evict(capacity) => EvictedKeeps(e.f, e'.f, capacity);
    case _ =>
  }

  lemma HeadMoves(e: Eng, c: Chunk, e': Eng, genesis: Block, window: nat)
    requires Inv(e, genesis, window) && Step(e, HeadAttach(c), e', genesis, window)
    ensures SchedMoves(e, e', window)
  {
    AttachTree(e.f, c, window, false);
    RollMovesBy(e.f, c, window, false);
  }

  ghost predicate SchedMovesAt(states: seq<Eng>, window: nat, i: nat) {
    i + 1 < |states| && SchedMoves(states[i], states[i + 1], window)
  }

  lemma StrictAt(states: seq<Eng>, steps: seq<EngineStep>, genesis: Block, window: nat, i: nat)
    requires Run(states, steps, genesis, window) && states[0] in Sound(genesis, window) && Strict(steps) && i < |steps|
    ensures SchedMovesAt(states, window, i)
  {
    RunInv(states, steps, genesis, window, i);
    assert StepAt(states, steps, genesis, window, i);
    StrictStep(states[i], steps[i], states[i + 1], genesis, window);
  }

  lemma {:induction false} SchedStaysBack(states: seq<Eng>, window: nat, i: nat)
    requires i < |states| && forall k :: 0 <= k < |states| - 1 ==> SchedMovesAt(states, window, k)
    ensures || HeightOf(states[i].f.sched) == HeightOf(states[0].f.sched)
            || HeightOf(states[i].f.sched) + window <= TopHead(states, i + 1)
  {
    if i > 0 {
      SchedStaysBack(states, window, i - 1);
      assert SchedMovesAt(states, window, i - 1);
    }
  }

  /** In strict runs from a fresh database the durable root is genesis, or stays at least the
      window below the highest head so far. */
  lemma RootStaysBack(states: seq<Eng>, steps: seq<EngineStep>, genesis: Block, window: nat, uid: nat, key: real,
                      i: nat)
    requires Run(states, steps, genesis, window) && Strict(steps) && i < |states|
    requires genesis.Genesis? && states[0] == Fresh(genesis, uid, key)
    ensures HeightOf(states[i].f.root) == 0 || HeightOf(states[i].f.root) + window <= TopHead(states, i + 1)
  {
    FreshInv(genesis, uid, key, window);
    forall k | 0 <= k < |steps| ensures SchedMovesAt(states, window, k) {
      StrictAt(states, steps, genesis, window, k);
    }
    SchedStaysBack(states, window, i);
    RootBelowSched(states, steps, genesis, window, i);
  }

  lemma RootBelowSched(states: seq<Eng>, steps: seq<EngineStep>, genesis: Block, window: nat, i: nat)
    requires Run(states, steps, genesis, window) && states[0] in Sound(genesis, window) && i < |states|
    ensures HeightOf(states[i].f.root) <= HeightOf(states[i].f.sched)
  {
    CursorsOnOnePath(states, steps, genesis, window, i);
    RunInv(states, steps, genesis, window, i);
    InTreeFacts(states[i].f, states[i].f.sched);
  }

  // ------------------------------------------------------------ what may still become head

  /** The address of a new chunk is unused. */
  ghost predicate NewUid(f: Forest, uid: nat) {
    forall c :: c in f.frozen || c in f.disk ==> c.uid != uid
  }

  /** Between inserts any unseen block on any live chunk up to the head passes the checks, and
      becomes the head if its key beats the head's. */
  lemma LiveCanWin(e: Eng, p: Chunk, b: Block, key: real, uid: nat, genesis: Block, window: nat) returns (e': Eng)
    requires Inv(e, genesis, window) && e.queue == [] && e.replay.None? && NewUid(e.f, uid)
    requires InTree(e.f, p) && HeightOf(p) <= HeightOf(e.f.head)
    requires b.Child? && b.prev == p.block && b.number == HeightOf(p) + 1
    requires (forall c :: InTree(e.f, c) ==> c.block != b) && key > e.f.head.key
    ensures EngineOps.Passes(e, b, false)
    ensures Step(e, HeadAttach(Node(uid, b, key, p)), e', genesis, window) && e'.f.head == Node(uid, b, key, p)
  {
    var chunk := Node(uid, b, key, p);
    FindComplete(e.f, p);
    InTreeFacts(e.f, p);
    QuietAgreement(e, genesis, window);
    EngineOps.MayJoin(e.f, chunk);
    PlanNeverFails(e.f, chunk, window, false);
    var r := Attach(e.f, b.prev, chunk, window, false);
    e' := e.(f := r.forest,
             queue := e.queue + [PersistJob(chunk, r.inserted.reorg, r.inserted.roll, e.f.head.block)],
             pending := Remember(e.pending, r.inserted.reorg, b));
  }

  /** The canonical chunk at a height from which the highest head is within the window. */
  lemma WithinWindowIsLive(states: seq<Eng>, steps: seq<EngineStep>, genesis: Block, window: nat, uid: nat, key: real,
                           i: nat, h: nat) returns (p: Chunk)
    requires Run(states, steps, genesis, window) && Strict(steps) && i < |states|
    requires genesis.Genesis? && states[0] == Fresh(genesis, uid, key)
    requires h <= HeightOf(states[i].f.head) && TopHead(states, i + 1) <= h + window
    ensures InTree(states[i].f, p) && Above(p, states[i].f.head) && HeightOf(p) == h
  {
    var f := states[i].f;
    FreshInv(genesis, uid, key, window);
    RunInv(states, steps, genesis, window, i);
    RootStaysBack(states, steps, genesis, window, uid, key, i);
    InTreeFacts(f, f.head);
    p := ChunkAt(f.root, f.head, h);
    InTreeAbove(f, p, f.head);
  }

  /** In strict runs from a fresh database a reorg stays possible over the whole window: a rival
      that leaves the canonical branch at any height the highest head is at most the window
      above becomes the head if its key beats the head's. */
  lemma RivalCanWin(states: seq<Eng>, steps: seq<EngineStep>, genesis: Block, window: nat, first: nat, rootKey: real,
                    i: nat, h: nat, b: Block, key: real, uid: nat) returns (p: Chunk, e': Eng)
    requires Run(states, steps, genesis, window) && Strict(steps) && i < |states|
    requires genesis.Genesis? && states[0] == Fresh(genesis, first, rootKey)
    requires states[i].queue == [] && states[i].replay.None? && NewUid(states[i].f, uid)
    requires h <= HeightOf(states[i].f.head) && TopHead(states, i + 1) <= h + window
    requires Linked(states[i].f.head.block) && b.Child? && b.prev == AncestorAt(states[i].f.head.block, h)
    requires b.number == h + 1 && (forall c :: InTree(states[i].f, c) ==> c.block != b) && key > states[i].f.head.key
    ensures Step(states[i], HeadAttach(Node(uid, b, key, p)), e', genesis, window)
    ensures EngineOps.Passes(states[i], b, false) && e'.f.head == Node(uid, b, key, p) && p.block == b.prev
  {
    var f := states[i].f;
    p := WithinWindowIsLive(states, steps, genesis, window, first, rootKey, i, h);
    FreshInv(genesis, first, rootKey, window);
    RunInv(states, steps, genesis, window, i);
    CanonicalAt(f, p);
    e' := LiveCanWin(states[i], p, b, key, uid, genesis, window);
  }

  lemma CanonicalAt(f: Forest, p: Chunk)
    requires Valid(f) && Above(p, f.head)
    ensures Linked(f.head.block) && HeightOf(p) <= HeightOf(f.head) && p.block == AncestorAt(f.head.block, HeightOf(p))
  {
    InTreeFacts(f, f.head);
    AboveFacts(p, f.head);
    AncEqHeight(p.block, f.head.block);
  }
}
