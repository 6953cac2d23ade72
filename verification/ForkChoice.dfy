/** Which fork choices always recover: a branch whose keys dip can never be replayed, a branch
    whose keys rise can. */
module ForkChoice {
  import opened Options
  import opened Blocks
  import opened ForkTree
  import opened SideEviction
  import opened BlockStore
  import opened Engine
  import opened EngineInv
  import opened EngineRuns
  import opened Recovery
  import Readers

  // ------------------------------------------------------------ a dip above the root

  /** The replay of `store` from `root` cannot get past a block at height `d`. */
  ghost predicate Stuck(score: Score, store: BlockDb, root: Block, tip: Block, d: nat, e: Eng) {
    && e.replay == Some(tip) && e.store == store && e.f.root.block == root && e.f.sched == e.f.root
    && HeightOf(e.f.head) < d && e.f.head.key == ReplayKey(score, root, RestartKey(root), e.f.head.block)
    && !e.stage.Written? && (forall i :: 0 <= i < |e.queue| ==> e.queue[i].roll.None?)
  }

  /** A stored block within the first window above `root` does not outrank its predecessor. */
  predicate DipsAt(score: Score, store: BlockDb, root: Block, window: nat, d: nat) {
    && Height(root) < d <= Height(root) + window && d <= store.cursor && d in store.index
    && !Outranks(score, root, RestartKey(root), store.index[d])
  }

  /** Within the window a linear attach rolls nothing. */
  lemma LinearNoRoll(e: Eng, chunk: Chunk, e': Eng, genesis: Block, window: nat)
    requires Inv(e, genesis, window) && Step(e, LinearAttach(chunk), e', genesis, window)
    requires HeightOf(chunk) < HeightOf(e.f.sched) + window
    ensures e'.f.sched == e.f.sched && e'.stage == e.stage
    ensures |e'.queue| == |e.queue| + 1 && e.queue <= e'.queue && e'.queue[|e.queue|].roll.None?
  {
    AttachShape(e.f, chunk, window, true);
  }

  /** The attached block lies below the dip. */
  lemma BelowDip(score: Score, store: BlockDb, root: Block, tip: Block, d: nat, e: Eng, chunk: Chunk, window: nat)
    requires Stuck(score, store, root, tip, d, e) && DipsAt(score, store, root, window, d)
    requires Opened(chunk) && chunk.parent == e.f.head && chunk.key > e.f.head.key && KeyedChunk(score, chunk)
    requires HeightOf(chunk) == HeightOf(e.f.head) + 1 && Height(root) <= HeightOf(e.f.head)
    requires HeightOf(chunk) in store.index && store.index[HeightOf(chunk)] == chunk.block
    ensures HeightOf(chunk) < d && chunk.key == ReplayKey(score, root, RestartKey(root), chunk.block)
  {
  }

  lemma StuckLinear(score: Score, store: BlockDb, root: Block, tip: Block, d: nat, e: Eng, chunk: Chunk, e': Eng,
                    genesis: Block, window: nat)
    requires Inv(e, genesis, window) && Stuck(score, store, root, tip, d, e) && DipsAt(score, store, root, window, d)
    requires Step(e, LinearAttach(chunk), e', genesis, window) && KeyedChunk(score, chunk)
    ensures Stuck(score, store, root, tip, d, e')
  {
    LinearHead(e, chunk, e', genesis, window);
    InTreeFacts(e.f, e.f.head);
    BelowDip(score, store, root, tip, d, e, chunk, window);
    LinearNoRoll(e, chunk, e', genesis, window);
  }

  lemma StuckCrash(score: Score, store: BlockDb, root: Block, tip: Block, d: nat, e: Eng, s: EngineStep, e': Eng,
                   genesis: Block, window: nat)
    requires Inv(e, genesis, window) && Stuck(score, store, root, tip, d, e) && Height(root) < d
    requires s.CrashAndBoot? && Step(e, s, e', genesis, window) && Keyed(score, e, s, genesis)
    ensures Stuck(score, store, root, tip, d, e')
  {
    CrashSafe(e, genesis, window);
    StoredTipIs(e, genesis, window);
  }

  lemma StuckStep(score: Score, store: BlockDb, root: Block, tip: Block, d: nat, e: Eng, s: EngineStep, e': Eng,
                  genesis: Block, window: nat)
    requires Inv(e, genesis, window) && Stuck(score, store, root, tip, d, e) && DipsAt(score, store, root, window, d)
    requires Step(e, s, e', genesis, window) && Keyed(score, e, s, genesis)
    ensures Stuck(score, store, root, tip, d, e')
  {
    match s
    case LinearAttach(c) => StuckLinear(score, store, root, tip, d, e, c, e', genesis, window);
    case CrashAndBoot(_, _) => StuckCrash(score, store, root, tip, d, e, s, e', genesis, window);
    case Evict(capacity) => EvictedKeeps(e.f, e'.f, capacity);
    case _ =>
  }

  ghost function StuckStates(score: Score, store: BlockDb, root: Block, tip: Block, d: nat, genesis: Block,
                             window: nat): iset<Eng> {
    iset e: Eng | Inv(e, genesis, window) && Stuck(score, store, root, tip, d, e)
  }

  lemma StuckAt(score: Score, store: BlockDb, root: Block, tip: Block, d: nat, states: seq<Eng>, steps: seq<EngineStep>,
                genesis: Block, window: nat, i: nat)
    requires KeyedRun(score, states, steps, genesis, window) && i < |steps| && DipsAt(score, store, root, window, d)
    ensures StaysAt(StuckStates(score, store, root, tip, d, genesis, window), states, i)
  {
    assert StepAt(states, steps, genesis, window, i) && KeyedAt(score, states, steps, genesis, i);
    if states[i] in StuckStates(score, store, root, tip, d, genesis, window) {
      StepKeepsInv(states[i], steps[i], states[i + 1], genesis, window);
      StuckStep(score, store, root, tip, d, states[i], steps[i], states[i + 1], genesis, window);
    }
  }

  /** A dip within the first window above the persisted root is final: the node replays
      forever, however often it is restarted. */
  lemma DipNeverRecovers(score: Score, e: Eng, uid: nat, states: seq<Eng>, steps: seq<EngineStep>, genesis: Block,
                         window: nat, d: nat, i: nat)
    requires e in Sound(genesis, window) && BootAccepts(e.store, e.db, genesis)
    requires KeyedRun(score, states, steps, genesis, window) && i < |states|
    requires states[0] == Booted(e, genesis, uid, RestartKey(PersistedRoot(e.db, genesis)))
    requires DipsAt(score, e.store, PersistedRoot(e.db, genesis), window, d)
    ensures states[i].replay == Some(PersistedHead(e)) && HeightOf(states[i].f.head) < d
  {
    var root, tip := PersistedRoot(e.db, genesis), PersistedHead(e);
    BootedReplays(score, e, genesis, window, uid, RestartKey(root));
    forall k | 0 <= k < |steps| ensures StaysAt(StuckStates(score, e.store, root, tip, d, genesis, window), states, k) {
      StuckAt(score, e.store, root, tip, d, states, steps, genesis, window, k);
    }
    StaysIn(StuckStates(score, e.store, root, tip, d, genesis, window), states, i);
  }

  // ------------------------------------------------------------ what a step makes live

  predicate AttachedBy(s: EngineStep, c: Chunk) {
    (s.SideAttach? || s.HeadAttach? || s.LinearAttach? || s.ReplaySide?) && s.chunk == c
  }

  /** Only attaches make chunks live, a boot keeps its root alone, and an old root never
      comes back. */
  lemma LiveStep(e: Eng, s: EngineStep, e': Eng, genesis: Block, window: nat, c: Chunk)
    requires Inv(e, genesis, window) && Step(e, s, e', genesis, window) && InTree(e'.f, c)
    ensures if s.CrashAndBoot? then c == e'.f.root else InTree(e.f, c) || AttachedBy(s, c)
    ensures !s.CrashAndBoot? && c == e.f.root ==> c == e'.f.root
  {
    match s
    case SideAttach(x) => AttachLive(e, s, e', genesis, window, false, c);
    case HeadAttach(x) => AttachLive(e, s, e', genesis, window, false, c);
    case LinearAttach(x) => AttachLive(e, s, e', genesis, window, true, c);
    case ReplaySide(x) => AddChildLive(e.f, x);
    case CommitMove => CommitLive(e, e', c);
    case Evict(capacity) => EvictedKeeps(e.f, e'.f, capacity);
    case _ =>
  }

  lemma AttachLive(e: Eng, s: EngineStep, e': Eng, genesis: Block, window: nat, linear: bool, c: Chunk)
    requires Valid(e.f) && Step(e, s, e', genesis, window) && InTree(e'.f, c)
    requires if linear then s.LinearAttach? else s.SideAttach? || s.HeadAttach?
    ensures (InTree(e.f, c) || c == s.chunk) && e'.f.root == e.f.root
  {
    AttachValid(e.f, s.chunk.block.prev, s.chunk, window, linear);
  }

  lemma CommitLive(e: Eng, e': Eng, c: Chunk)
    requires Valid(e.f) && e.queue != [] && e.queue[0].roll.Some? && ValidRoll(e.f, e.queue[0].roll.value)
    requires e'.f == CommitRoll(e.f, e.queue[0].roll.value) && InTree(e'.f, c)
    ensures InTree(e.f, c) && (c == e.f.root ==> c == e'.f.root)
  {
    var job := e.queue[0].roll.value;
    CommitRollValid(e.f, job);
    AboveSize(e.f.root, job.newRoot);
    if c == e.f.root { AboveSize(job.newRoot, c); }
  }

  // ------------------------------------------------------------ rising runs

  /** Every live chunk outranks its parent. */
  ghost predicate LiveRises(f: Forest) {
    forall c :: InTree(f, c) && c != f.root ==> c.Node? && c.key > c.parent.key
  }

  /** What the step attaches outranks its parent. */
  predicate Grows(s: EngineStep) {
    match s
    case SideAttach(c) => c.Node? && c.key > c.parent.key
    case HeadAttach(c) => c.Node? && c.key > c.parent.key
    case ReplaySide(c) => c.Node? && c.key > c.parent.key
    case _ => true
  }

  lemma GrowsKeepsLive(e: Eng, s: EngineStep, e': Eng, genesis: Block, window: nat)
    requires Inv(e, genesis, window) && Step(e, s, e', genesis, window) && Grows(s) && LiveRises(e.f)
    ensures LiveRises(e'.f)
  {
    if s.LinearAttach? { LinearHead(e, s.chunk, e', genesis, window); }
    forall c | InTree(e'.f, c) && c != e'.f.root ensures c.Node? && c.key > c.parent.key {
      LiveStep(e, s, e', genesis, window, c);
    }
  }

  ghost predicate GrowsAt(steps: seq<EngineStep>, i: nat) {
    i < |steps| && Grows(steps[i])
  }

  ghost function Risen(genesis: Block, window: nat): iset<Eng> {
    iset e: Eng | Inv(e, genesis, window) && LiveRises(e.f)
  }

  lemma RisenAt(states: seq<Eng>, steps: seq<EngineStep>, genesis: Block, window: nat, i: nat)
    requires Run(states, steps, genesis, window) && i < |steps| && GrowsAt(steps, i)
    ensures StaysAt(Risen(genesis, window), states, i)
  {
    assert StepAt(states, steps, genesis, window, i);
    if states[i] in Risen(genesis, window) {
      StepKeepsInv(states[i], steps[i], states[i + 1], genesis, window);
      GrowsKeepsLive(states[i], steps[i], states[i + 1], genesis, window);
    }
  }

  /** If every block outranks its parent when it is attached, every live chunk outranks its
      parent in every state of the run. */
  lemma RisingRunLive(states: seq<Eng>, steps: seq<EngineStep>, genesis: Block, window: nat, i: nat)
    requires Run(states, steps, genesis, window) && states[0] in Risen(genesis, window) && i < |states|
    requires forall k :: 0 <= k < |steps| ==> GrowsAt(steps, k)
    ensures LiveRises(states[i].f)
  {
    forall k | 0 <= k < |steps| ensures StaysAt(Risen(genesis, window), states, k) {
      RisenAt(states, steps, genesis, window, k);
    }
    StaysIn(Risen(genesis, window), states, i);
  }

  // ------------------------------------------------------------ the default fork choice

  /** The default consensus key is the height. */
  ghost predicate ByHeight(score: Score) {
    forall b, k :: score(b, k) == HeightKey(Height(b))
  }

  ghost predicate Heighted(f: Forest) {
    forall c :: InTree(f, c) ==> c.key == HeightKey(HeightOf(c))
  }

  lemma HeightedStep(score: Score, e: Eng, s: EngineStep, e': Eng, genesis: Block, window: nat)
    requires Inv(e, genesis, window) && Step(e, s, e', genesis, window) && Keyed(score, e, s, genesis)
    requires ByHeight(score) && Heighted(e.f)
    ensures Heighted(e'.f) && Rises(e, s)
  {
    forall c | InTree(e'.f, c) ensures c.key == HeightKey(HeightOf(c)) {
      LiveStep(e, s, e', genesis, window, c);
    }
  }

  lemma {:induction false} HeightsRise(score: Score, root: Block, b: Block)
    requires ByHeight(score) && Linked(b) && AncEq(root, b)
    ensures BranchRises(score, root, RestartKey(root), b)
    ensures ReplayKey(score, root, RestartKey(root), b) == HeightKey(Height(b))
  {
    AncEqHeight(root, b);
    if b != root {
      HeightsRise(score, root, b.prev);
    }
  }

  ghost function DefaultStates(genesis: Block, window: nat): iset<Eng> {
    iset e: Eng | Inv(e, genesis, window) && BootAccepts(e.store, e.db, genesis) && Heighted(e.f)
  }

  lemma DefaultAt(score: Score, states: seq<Eng>, steps: seq<EngineStep>, genesis: Block, window: nat, i: nat)
    requires KeyedRun(score, states, steps, genesis, window) && ByHeight(score) && i < |steps|
    ensures StaysAt(DefaultStates(genesis, window), states, i)
  {
    assert StepAt(states, steps, genesis, window, i) && KeyedAt(score, states, steps, genesis, i);
    if states[i] in DefaultStates(genesis, window) {
      HeightedStep(score, states[i], steps[i], states[i + 1], genesis, window);
      RisingStep(states[i], steps[i], states[i + 1], genesis, window);
    }
  }

  /** Some crash-free run leads from a restart after `e` back to the persisted head. */
  ghost predicate Recoverable(score: Score, e: Eng, genesis: Block, window: nat, uid: nat) {
    var b := Booted(e, genesis, uid, RestartKey(PersistedRoot(e.db, genesis)));
    exists states, steps, e' ::
      Restarts(score, b, states, steps, e', genesis, window) && Reopened(e', PersistedHead(e), genesis, window)
  }

  /** A restart recovers exactly when the persisted branch rises. */
  lemma RecoverableIff(score: Score, e: Eng, genesis: Block, window: nat, uid: nat)
    requires e in Sound(genesis, window) && BootAccepts(e.store, e.db, genesis) && window >= 1
    ensures Recoverable(score, e, genesis, window, uid)
       <==> BranchRises(score, Reached(e), RestartKey(Reached(e)), PersistedHead(e))
  {
    var root := PersistedRoot(e.db, genesis);
    CrashSafe(e, genesis, window);
    ReachedBelowTip(e, genesis, window);
    ReplayFinishesIff(score, e, genesis, window, uid, RestartKey(root));
    StoredRisesIff(score, e.store, root, RestartKey(root), PersistedHead(e));
  }

  /** With the default fork choice every run from a fresh database can be restarted at any
      point: boot accepts and its replay reaches the persisted head. */
  lemma DefaultRunRecovers(score: Score, states: seq<Eng>, steps: seq<EngineStep>, genesis: Block, window: nat,
                           first: nat, uid: nat, i: nat)
    requires KeyedRun(score, states, steps, genesis, window) && ByHeight(score) && window >= 1 && i < |states|
    requires genesis.Genesis? && states[0] == Fresh(genesis, first, RestartKey(genesis))
    ensures BootAccepts(states[i].store, states[i].db, genesis) && Recoverable(score, states[i], genesis, window, uid)
  {
    FreshInv(genesis, first, RestartKey(genesis), window);
    forall k | 0 <= k < |steps| ensures StaysAt(DefaultStates(genesis, window), states, k) {
      DefaultAt(score, states, steps, genesis, window, k);
    }
    StaysIn(DefaultStates(genesis, window), states, i);
    ReachedBelowTip(states[i], genesis, window);
    HeightsRise(score, Reached(states[i]), PersistedHead(states[i]));
    RecoverableIff(score, states[i], genesis, window, uid);
  }

  // ------------------------------------------------------------ keys that ignore the parent's

  /** The key of a block does not depend on its parent's key. */
  ghost predicate Own(score: Score) {
    forall b, k :: score(b, k) == OwnKey(score, b)
  }

  function OwnKey(score: Score, b: Block): real { score(b, 0.0) }

  ghost predicate OwnKeys(score: Score, f: Forest) {
    forall c :: InTree(f, c) && c.Node? ==> c.key == OwnKey(score, c.block)
  }

  /** On the branch of `b`, every block more than one above `lo` outranks its predecessor. */
  predicate Climbs(score: Score, lo: nat, b: Block) {
    b.Child? && Height(b) > lo + 1 ==> OwnKey(score, b) > OwnKey(score, b.prev) && Climbs(score, lo, b.prev)
  }

  lemma ClimbsFromHigher(score: Score, lo: nat, hi: nat, b: Block)
    requires Climbs(score, lo, b) && lo <= hi
    ensures Climbs(score, hi, b)
  {
  }

  lemma {:induction false} LiveClimbs(score: Score, f: Forest, c: Chunk)
    requires Valid(f) && LiveRises(f) && OwnKeys(score, f) && InTree(f, c)
    ensures Climbs(score, HeightOf(f.root), c.block)
  {
    InTreeFacts(f, c);
    if c != f.root {
      InTreeFacts(f, c.parent);
      AboveFacts(f.root, c);
      LiveClimbs(score, f, c.parent);
    }
  }

  /** The persisted head changes only when the front job's block is written. */
  lemma PersistedStep(e: Eng, s: EngineStep, e': Eng, genesis: Block, window: nat)
    requires Inv(e, genesis, window) && Step(e, s, e', genesis, window)
    ensures PersistedHead(e') == PersistedHead(e)
         || (s.StoreWrite? && e.queue != [] && PersistedHead(e') == e.queue[0].chunk.block)
  {
    match s
    case JobDone => PopTip(e.queue, e.f.head);
    case EndMove => PopTip(e.queue, e.f.head);
    case CrashAndBoot(uid, key) => KeepsCrash(e, uid, key, e', genesis, window);
    case Evict(capacity) => EvictedKeeps(e.f, e'.f, capacity);
    case _ =>
  }

  /** What runs with rising keys of their own keep. */
  ghost predicate ClimbInv(score: Score, e: Eng) {
    LiveRises(e.f) && OwnKeys(score, e.f) && Climbs(score, Height(Reached(e)), PersistedHead(e))
  }

  lemma OwnKeysStep(score: Score, e: Eng, s: EngineStep, e': Eng, genesis: Block, window: nat)
    requires Inv(e, genesis, window) && Step(e, s, e', genesis, window) && Keyed(score, e, s, genesis)
    requires Own(score) && OwnKeys(score, e.f)
    ensures OwnKeys(score, e'.f)
  {
    forall c | InTree(e'.f, c) && c.Node? ensures c.key == OwnKey(score, c.block) {
      LiveStep(e, s, e', genesis, window, c);
    }
  }

  /** The block whose state is on disk never moves down. */
  lemma ReachedHeight(e: Eng, s: EngineStep, e': Eng, genesis: Block, window: nat)
    requires Inv(e, genesis, window) && Step(e, s, e', genesis, window)
    ensures Height(Reached(e)) <= Height(Reached(e'))
  {
    if s.CrashAndBoot? {
      KeepsCrash(e, s.uid, s.rootKey, e', genesis, window);
    } else {
      StepKeepsInv(e, s, e', genesis, window);
      Readers.ReachedClimbs(e, s, e', genesis, window);
      ReachedBelowTip(e', genesis, window);
      AncEqHeight(Reached(e'), PersistedHead(e'));
      AncEqHeight(Reached(e), Reached(e'));
    }
  }

  lemma ClimbStep(score: Score, e: Eng, s: EngineStep, e': Eng, genesis: Block, window: nat)
    requires Inv(e, genesis, window) && Step(e, s, e', genesis, window) && Keyed(score, e, s, genesis) && Grows(s)
    requires Own(score) && ClimbInv(score, e)
    ensures ClimbInv(score, e')
  {
    GrowsKeepsLive(e, s, e', genesis, window);
    OwnKeysStep(score, e, s, e', genesis, window);
    PersistedStep(e, s, e', genesis, window);
    ReachedHeight(e, s, e', genesis, window);
    if PersistedHead(e') == PersistedHead(e) {
      ClimbsFromHigher(score, Height(Reached(e)), Height(Reached(e')), PersistedHead(e));
    } else {
      QueuedLive(e, genesis, window, 0);
      LiveClimbs(score, e.f, e.queue[0].chunk);
    }
  }

  /** A branch that climbs can be replayed exactly when its first block beats the root. */
  lemma {:induction false} ClimbsRises(score: Score, root: Block, rootKey: real, b: Block)
    requires Own(score) && Linked(b) && AncEq(root, b) && b != root && Climbs(score, Height(root), b)
    ensures Height(root) < Height(b)
    ensures BranchRises(score, root, rootKey, b) <==> OwnKey(score, AncestorAt(b, Height(root) + 1)) > rootKey
  {
    AncEqHeight(root, b);
    if b.prev != root {
      AncEqHeight(root, b.prev);
      ClimbsRises(score, root, rootKey, b.prev);
    }
  }

  ghost function Climbing(score: Score, genesis: Block, window: nat): iset<Eng> {
    iset e: Eng | Inv(e, genesis, window) && BootAccepts(e.store, e.db, genesis) && ClimbInv(score, e)
  }

  /** Every block outranks its parent, as a side body and when it is attached. */
  ghost predicate RisingKeyedRun(score: Score, states: seq<Eng>, steps: seq<EngineStep>, genesis: Block, window: nat) {
    && KeyedRun(score, states, steps, genesis, window) && RisingRun(states, steps, genesis, window)
    && forall k :: 0 <= k < |steps| ==> GrowsAt(steps, k)
  }

  lemma ClimbingAt(score: Score, states: seq<Eng>, steps: seq<EngineStep>, genesis: Block, window: nat, i: nat)
    requires RisingKeyedRun(score, states, steps, genesis, window) && Own(score) && i < |steps|
    ensures StaysAt(Climbing(score, genesis, window), states, i)
  {
    assert StepAt(states, steps, genesis, window, i) && KeyedAt(score, states, steps, genesis, i);
    assert RisesAt(states, steps, i) && GrowsAt(steps, i);
    if states[i] in Climbing(score, genesis, window) {
      RisingStep(states[i], steps[i], states[i + 1], genesis, window);
      ClimbStep(score, states[i], steps[i], states[i + 1], genesis, window);
    }
  }

  /** A restart from `e` has nothing to replay, or the first stored block above the persisted
      root outranks the key the root restarts with. */
  ghost predicate FirstOutranks(score: Score, e: Eng, genesis: Block) {
    var root := PersistedRoot(e.db, genesis);
    Height(root) + 1 in e.store.index ==> OwnKey(score, e.store.index[Height(root) + 1]) > RestartKey(root)
  }

  lemma FirstStored(score: Score, e: Eng, genesis: Block, window: nat)
    requires Inv(e, genesis, window)
    ensures Linked(PersistedHead(e)) && AncEq(Reached(e), PersistedHead(e))
    ensures Reached(e) != PersistedHead(e) ==> Height(Reached(e)) < Height(PersistedHead(e))
    ensures FirstOutranks(score, e, genesis) <==>
            var root, tip := Reached(e), PersistedHead(e);
            root == tip || OwnKey(score, AncestorAt(tip, Height(root) + 1)) > RestartKey(root)
  {
    var root, tip := Reached(e), PersistedHead(e);
    CrashSafe(e, genesis, window);
    ReachedBelowTip(e, genesis, window);
    AncEqHeight(root, tip);
    assert IndexedAt(e.store, tip, Height(root) + 1);
  }

  lemma BranchFirst(score: Score, e: Eng, genesis: Block, window: nat)
    requires Inv(e, genesis, window) && ClimbInv(score, e) && Own(score)
    ensures BranchRises(score, Reached(e), RestartKey(Reached(e)), PersistedHead(e))
       <==> FirstOutranks(score, e, genesis)
  {
    FirstStored(score, e, genesis, window);
    if Reached(e) != PersistedHead(e) {
      ClimbsRises(score, Reached(e), RestartKey(Reached(e)), PersistedHead(e));
    }
  }

  lemma ClimbingRecovers(score: Score, e: Eng, genesis: Block, window: nat, uid: nat)
    requires e in Climbing(score, genesis, window) && Own(score) && window >= 1
    ensures Recoverable(score, e, genesis, window, uid) <==> FirstOutranks(score, e, genesis)
  {
    RecoverableIff(score, e, genesis, window, uid);
    BranchFirst(score, e, genesis, window);
  }

  /** If every block outranks its parent and keys ignore the parent's key, boot accepts after
      a crash anywhere in any run from a fresh database, and its replay reaches the persisted
      head exactly when the first stored block outranks the restarted root. */
  lemma RisingRunRecovers(score: Score, states: seq<Eng>, steps: seq<EngineStep>, genesis: Block, window: nat,
                          first: nat, uid: nat, i: nat)
    requires RisingKeyedRun(score, states, steps, genesis, window) && Own(score) && window >= 1 && i < |states|
    requires genesis.Genesis? && states[0] == Fresh(genesis, first, RestartKey(genesis))
    ensures LiveRises(states[i].f) && BootAccepts(states[i].store, states[i].db, genesis)
    ensures Recoverable(score, states[i], genesis, window, uid) <==> FirstOutranks(score, states[i], genesis)
  {
    FreshInv(genesis, first, RestartKey(genesis), window);
    forall k | 0 <= k < |steps| ensures StaysAt(Climbing(score, genesis, window), states, k) {
      ClimbingAt(score, states, steps, genesis, window, k);
    }
    StaysIn(Climbing(score, genesis, window), states, i);
    ClimbingRecovers(score, states[i], genesis, window, uid);
  }

  // ------------------------------------------------------------ a dipping run

  /** A quiet sound state whose live chunks are exactly `live`. */
  ghost predicate Quiet(e: Eng, root: Chunk, head: Chunk, live: set<Chunk>, genesis: Block, window: nat) {
    && e in Sound(genesis, window) && e.queue == [] && e.replay.None? && e.f.root == root && e.f.head == head
    && e.f.frozen == live && e.f.disk == {root} && Lives(e.f, live)
  }

  /** `chunk` continues a live chunk with a block not seen yet, within range. */
  predicate Fits(chunk: Chunk, root: Chunk, head: Chunk, live: set<Chunk>) {
    && Opened(chunk) && chunk.parent in live && HeightOf(chunk) == HeightOf(chunk.parent) + 1
    && HeightOf(root) < HeightOf(chunk) <= HeightOf(head) + 1
    && root in live && forall c :: c in live ==> c.block != chunk.block
  }

  lemma FitsTree(f: Forest, chunk: Chunk, root: Chunk, head: Chunk, live: set<Chunk>)
    requires Valid(f) && f.frozen == live && f.disk == {root} && Lives(f, live) && Fits(chunk, root, head, live)
    ensures MayAttach(f, chunk.block.prev, chunk)
  {
    FindComplete(f, chunk.parent);
  }

  lemma FitsAttaches(e: Eng, chunk: Chunk, root: Chunk, head: Chunk, live: set<Chunk>, genesis: Block, window: nat)
    requires Quiet(e, root, head, live, genesis, window) && Fits(chunk, root, head, live)
    ensures MayAttach(e.f, chunk.block.prev, chunk) && InRange(e.f, HeightOf(chunk))
    ensures Valid(e.f) && e.f.sched == e.f.root
  {
    FitsTree(e.f, chunk, root, head, live);
    QuietAgreement(e, genesis, window);
  }

  /** A block that beats the head becomes it and is persisted, moving no root within the window. */
  lemma InsertHead(score: Score, e: Eng, chunk: Chunk, root: Chunk, head: Chunk, live: set<Chunk>, genesis: Block,
                   window: nat) returns (states: seq<Eng>, steps: seq<EngineStep>, e': Eng)
    requires Quiet(e, root, head, live, genesis, window) && Fits(chunk, root, head, live) && KeyedChunk(score, chunk)
    requires chunk.key > head.key && HeightOf(chunk) <= HeightOf(root) + window
    ensures Restarts(score, e, states, steps, e', genesis, window)
    ensures Quiet(e', root, chunk, live + {chunk}, genesis, window)
  {
    var a := HeadAttached(score, e, chunk, root, head, live, genesis, window);
    var b;
    b, e' := JobPersists(score, a, genesis, window);
    var write, done := [StoreWrite], [JobDone];
    RestartsThen(score, a, [a, b], write, b, [b, e'], done, e', genesis, window);
    var more, rest := [a, b] + [b, e'][1..], write + done;
    RestartsThen(score, e, [e, a], [HeadAttach(chunk)], a, more, rest, e', genesis, window);
    states, steps := [e, a] + more[1..], [HeadAttach(chunk)] + rest;
  }

  /** A lone job without a roll is persisted in two steps. */
  lemma JobPersists(score: Score, a: Eng, genesis: Block, window: nat) returns (b: Eng, c: Eng)
    requires a in Sound(genesis, window) && a.stage.Waiting? && a.replay.None?
    requires |a.queue| == 1 && a.queue[0].roll.None?
    ensures Restarts(score, a, [a, b], [StoreWrite], b, genesis, window)
    ensures Restarts(score, b, [b, c], [JobDone], c, genesis, window)
    ensures c in Sound(genesis, window) && c.queue == [] && c.replay.None? && c.f == a.f
  {
    SaveAccepted(a, genesis, window);
    b := a.(store := SaveBlock(a).value, stage := Saved);
    KeepsStoreWrite(a, b, genesis, window);
    StepRestarts(score, a, StoreWrite, b, genesis, window);
    c := b.(queue := b.queue[1..], stage := Waiting);
    KeepsJobDone(b, c, genesis, window);
    StepRestarts(score, b, JobDone, c, genesis, window);
  }

  /** An attach as head that stays within the window rolls nothing. */
  lemma HeadNoRoll(f: Forest, chunk: Chunk, window: nat)
    requires Valid(f) && Opened(chunk) && MayAttach(f, chunk.block.prev, chunk) && chunk.key > f.head.key
    requires HeightOf(chunk) <= HeightOf(f.sched) + window
    ensures var r := Attach(f, chunk.block.prev, chunk, window, false);
            && r.Attached? && r.inserted.isHead && r.inserted.roll.None?
            && r.forest == AdoptHead(AddChild(f, chunk), chunk, None)
  {
    InTreeFacts(f, chunk.parent);
  }

  lemma HeadLives(f: Forest, chunk: Chunk, live: set<Chunk>)
    requires Valid(f) && Opened(chunk) && MayAttach(f, chunk.block.prev, chunk) && Lives(f, live)
    ensures Lives(AdoptHead(AddChild(f, chunk), chunk, None), live + {chunk})
  {
    var g := AdoptHead(AddChild(f, chunk), chunk, None);
    AddChildLive(f, chunk);
    AddChildValid(f, chunk.block.prev, chunk);
    forall c ensures InTree(g, c) <==> c in live + {chunk} {
      SameShape(AddChild(f, chunk), g, c);
    }
  }

  ghost predicate Lives(f: Forest, live: set<Chunk>) {
    forall c :: InTree(f, c) <==> c in live
  }

  lemma HeadAttached(score: Score, e: Eng, chunk: Chunk, root: Chunk, head: Chunk, live: set<Chunk>, genesis: Block,
                     window: nat) returns (a: Eng)
    requires Quiet(e, root, head, live, genesis, window) && Fits(chunk, root, head, live) && KeyedChunk(score, chunk)
    requires chunk.key > head.key && HeightOf(chunk) <= HeightOf(root) + window
    ensures Restarts(score, e, [e, a], [HeadAttach(chunk)], a, genesis, window) && a in Sound(genesis, window)
    ensures a.stage.Waiting? && |a.queue| == 1 && a.queue[0].roll.None? && a.replay.None?
    ensures a.f == AdoptHead(AddChild(e.f, chunk), chunk, None) && Lives(a.f, live + {chunk})
  {
    FitsAttaches(e, chunk, root, head, live, genesis, window);
    HeadNoRoll(e.f, chunk, window);
    HeadLives(e.f, chunk, live);
    var r := Attach(e.f, chunk.block.prev, chunk, window, false);
    a := e.(f := r.forest,
            queue := e.queue + [PersistJob(chunk, r.inserted.reorg, r.inserted.roll, e.f.head.block)],
            pending := Remember(e.pending, r.inserted.reorg, chunk.block));
    KeepsHeadAttach(e, chunk, a, genesis, window);
    StepRestarts(score, e, HeadAttach(chunk), a, genesis, window);
  }

  /** The body of a fitting side block is stored. */
  lemma SideStored(score: Score, e: Eng, chunk: Chunk, root: Chunk, head: Chunk, live: set<Chunk>, genesis: Block,
                   window: nat) returns (a: Eng)
    requires Quiet(e, root, head, live, genesis, window) && Fits(chunk, root, head, live) && KeyedChunk(score, chunk)
    requires chunk.key <= head.key
    ensures Restarts(score, e, [e, a], [SideBody(chunk.block, chunk.key)], a, genesis, window)
    ensures Quiet(a, root, head, live, genesis, window) && Stored(a.store, chunk.block)
  {
    FitsAttaches(e, chunk, root, head, live, genesis, window);
    FindComplete(e.f, chunk.parent);
    var b := chunk.block;
    a := e.(store := AfterPut(e.store, Height(b), b, b).value);
    KeepsSideBody(e, b, chunk.key, a, genesis, window);
    StepRestarts(score, e, SideBody(b, chunk.key), a, genesis, window);
  }

  /** A stored side block is attached. */
  lemma SideAttached(score: Score, e: Eng, chunk: Chunk, root: Chunk, head: Chunk, live: set<Chunk>, genesis: Block,
                     window: nat) returns (a: Eng)
    requires Quiet(e, root, head, live, genesis, window) && Fits(chunk, root, head, live) && KeyedChunk(score, chunk)
    requires chunk.key <= head.key && Stored(e.store, chunk.block)
    ensures Restarts(score, e, [e, a], [SideAttach(chunk)], a, genesis, window)
    ensures Quiet(a, root, head, live + {chunk}, genesis, window)
  {
    FitsAttaches(e, chunk, root, head, live, genesis, window);
    a := e.(f := AddChild(e.f, chunk));
    KeepsSideAttach(e, chunk, a, genesis, window);
    StepRestarts(score, e, SideAttach(chunk), a, genesis, window);
    AddChildLive(e.f, chunk);
    AddChildValid(e.f, chunk.block.prev, chunk);
  }

  /** A block that does not beat the head joins a side branch. */
  lemma InsertSide(score: Score, e: Eng, chunk: Chunk, root: Chunk, head: Chunk, live: set<Chunk>, genesis: Block,
                   window: nat) returns (states: seq<Eng>, steps: seq<EngineStep>, e': Eng)
    requires Quiet(e, root, head, live, genesis, window) && Fits(chunk, root, head, live) && KeyedChunk(score, chunk)
    requires chunk.key <= head.key
    ensures Restarts(score, e, states, steps, e', genesis, window)
    ensures Quiet(e', root, head, live + {chunk}, genesis, window)
  {
    var a := SideStored(score, e, chunk, root, head, live, genesis, window);
    e' := SideAttached(score, a, chunk, root, head, live, genesis, window);
    var body, join := [SideBody(chunk.block, chunk.key)], [SideAttach(chunk)];
    RestartsThen(score, e, [e, a], body, a, [a, e'], join, e', genesis, window);
    states, steps := [e, a] + [a, e'][1..], body + join;
  }

  /** The key of a block is its hash. */
  ghost predicate ByHash(score: Score) {
    forall b: Block, k :: b.Child? ==> score(b, k) == b.digest as real
  }

  function Plain(prev: Block, digest: nat): Block { Child(prev, Height(prev) + 1, [], map[], digest) }

  function On(parent: Chunk, digest: nat): Chunk {
    Node(digest, Plain(parent.block, digest), digest as real, parent)
  }

  /** A keyed crash-free run from a fresh database leads to `e`. */
  ghost predicate FromFresh(score: Score, e: Eng, genesis: Block, window: nat)
    requires genesis.Genesis?
  {
    exists states, steps :: Restarts(score, Fresh(genesis, 0, RestartKey(genesis)), states, steps, e, genesis, window)
  }

  ghost predicate Built(score: Score, e: Eng, root: Chunk, head: Chunk, live: set<Chunk>, genesis: Block, window: nat) {
    genesis.Genesis? && Quiet(e, root, head, live, genesis, window) && FromFresh(score, e, genesis, window)
  }

  lemma FromFreshThen(score: Score, e: Eng, states: seq<Eng>, steps: seq<EngineStep>, e': Eng, genesis: Block,
                      window: nat)
    requires genesis.Genesis? && FromFresh(score, e, genesis, window)
    requires Restarts(score, e, states, steps, e', genesis, window)
    ensures FromFresh(score, e', genesis, window)
  {
    var start := Fresh(genesis, 0, RestartKey(genesis));
    var ss, ts :| Restarts(score, start, ss, ts, e, genesis, window);
    RestartsThen(score, start, ss, ts, e, states, steps, e', genesis, window);
  }

  /** No live block has this hash. */
  predicate Unused(live: set<Chunk>, digest: nat) {
    forall c :: c in live ==> c.block.Genesis? || c.block.digest != digest
  }

  /** A block with this hash can be added on `parent`. */
  predicate Room(parent: Chunk, digest: nat, root: Chunk, head: Chunk, live: set<Chunk>) {
    && parent in live && root in live && HeightOf(root) <= HeightOf(parent) <= HeightOf(head)
    && Unused(live, digest)
  }

  lemma OnFits(score: Score, parent: Chunk, digest: nat, root: Chunk, head: Chunk, live: set<Chunk>)
    requires ByHash(score) && Room(parent, digest, root, head, live)
    ensures Fits(On(parent, digest), root, head, live) && KeyedChunk(score, On(parent, digest))
  {
  }

  lemma AddHead(score: Score, e: Eng, parent: Chunk, digest: nat, root: Chunk, head: Chunk, live: set<Chunk>,
                genesis: Block, window: nat) returns (e': Eng)
    requires ByHash(score) && Built(score, e, root, head, live, genesis, window)
    requires Room(parent, digest, root, head, live)
    requires digest as real > head.key && HeightOf(parent) < HeightOf(root) + window
    ensures Built(score, e', root, On(parent, digest), live + {On(parent, digest)}, genesis, window)
  {
    OnFits(score, parent, digest, root, head, live);
    var states, steps;
    states, steps, e' := InsertHead(score, e, On(parent, digest), root, head, live, genesis, window);
    FromFreshThen(score, e, states, steps, e', genesis, window);
  }

  lemma AddSide(score: Score, e: Eng, parent: Chunk, digest: nat, root: Chunk, head: Chunk, live: set<Chunk>,
                genesis: Block, window: nat) returns (e': Eng)
    requires ByHash(score) && Built(score, e, root, head, live, genesis, window)
    requires Room(parent, digest, root, head, live)
    requires digest as real <= head.key
    ensures Built(score, e', root, head, live + {On(parent, digest)}, genesis, window)
  {
    OnFits(score, parent, digest, root, head, live);
    var states, steps;
    states, steps, e' := InsertSide(score, e, On(parent, digest), root, head, live, genesis, window);
    FromFreshThen(score, e, states, steps, e', genesis, window);
  }

  lemma FreshBuilt(score: Score, genesis: Block, window: nat)
    requires genesis.Genesis?
    ensures var e := Fresh(genesis, 0, RestartKey(genesis));
            Built(score, e, e.f.root, e.f.root, {e.f.root}, genesis, window)
  {
    var e := Fresh(genesis, 0, RestartKey(genesis));
    FreshInv(genesis, 0, RestartKey(genesis), window);
    FreshValid(e.f.root, window);
    assert Restarts(score, e, [e], [], e, genesis, window);
  }

  function Origin(genesis: Block): Chunk { RootChunk(0, genesis, RestartKey(genesis)) }

  /** The first branch: keys 10 and 11. */
  lemma FirstBranch(score: Score, genesis: Block, window: nat) returns (e: Eng)
    requires ByHash(score) && genesis.Genesis? && window >= 3
    ensures var r := Origin(genesis); var a := On(r, 10); var b := On(a, 11);
            Built(score, e, r, b, {r} + {a} + {b}, genesis, window)
  {
    var r := Origin(genesis);
    var a := On(r, 10);
    FreshBuilt(score, genesis, window);
    e := AddHead(score, Fresh(genesis, 0, RestartKey(genesis)), r, 10, r, r, {r}, genesis, window);
    e := AddHead(score, e, a, 11, r, a, {r} + {a}, genesis, window);
  }

  /** The second branch fits beside any live chunks with other hashes. */
  lemma SideRoom(genesis: Block, head: Chunk, live: set<Chunk>)
    requires genesis.Genesis? && Origin(genesis) in live && HeightOf(head) >= 2
    requires Unused(live, 3) && Unused(live, 5) && Unused(live, 12)
    ensures var r := Origin(genesis); var s1 := On(r, 5); var s2 := On(s1, 3);
            && Room(r, 5, r, head, live) && Room(s1, 3, r, head, live + {s1})
            && Room(s2, 12, r, head, live + {s1} + {s2})
  {
  }

  /** The second branch, keys 5, 3 and 12, overtakes the head. */
  lemma Overtakes(score: Score, e: Eng, head: Chunk, live: set<Chunk>, genesis: Block, window: nat) returns (e': Eng)
    requires ByHash(score) && genesis.Genesis? && Built(score, e, Origin(genesis), head, live, genesis, window)
    requires Origin(genesis) in live && 5.0 <= head.key < 12.0 && HeightOf(head) >= 2 && window >= 3
    requires Unused(live, 3) && Unused(live, 5) && Unused(live, 12)
    ensures var r := Origin(genesis); var s1 := On(r, 5); var s2 := On(s1, 3); var s3 := On(s2, 12);
            Built(score, e', r, s3, live + {s1} + {s2} + {s3}, genesis, window)
  {
    var r := Origin(genesis);
    var s1 := On(r, 5);
    var s2 := On(s1, 3);
    SideRoom(genesis, head, live);
    var a := AddSide(score, e, r, 5, r, head, live, genesis, window);
    var b := AddSide(score, a, s1, 3, r, head, live + {s1}, genesis, window);
    e' := AddHead(score, b, s2, 12, r, head, live + {s1} + {s2}, genesis, window);
  }

  /** With hash keys 10 and 11 on the first branch and 5, 3, 12 on the second, the second
      becomes canonical although its second block ranks below its first. A crash then leaves a
      store that boot accepts and whose replay never gets past height 1. */
  lemma DippingRun(score: Score, genesis: Block, window: nat) returns (e: Eng)
    requires ByHash(score) && genesis.Genesis? && window >= 3
    ensures FromFresh(score, e, genesis, window) && e in Sound(genesis, window)
    ensures BootAccepts(e.store, e.db, genesis) && PersistedRoot(e.db, genesis) == genesis
    ensures DipsAt(score, e.store, genesis, window, 2)
  {
    var r := Origin(genesis);
    var a := On(r, 10);
    var b := On(a, 11);
    var first := FirstBranch(score, genesis, window);
    e := Overtakes(score, first, b, {r} + {a} + {b}, genesis, window);
    DipStored(score, e, genesis, window);
  }

  lemma DipStored(score: Score, e: Eng, genesis: Block, window: nat)
    requires ByHash(score) && genesis.Genesis? && window >= 3
    requires e in Sound(genesis, window) && e.queue == [] && e.replay.None? && e.f.root.block == genesis
    requires e.f.head.block == Plain(Plain(Plain(genesis, 5), 3), 12)
    ensures BootAccepts(e.store, e.db, genesis)
    ensures PersistedRoot(e.db, genesis) == genesis && DipsAt(score, e.store, genesis, window, 2)
  {
    CrashSafe(e, genesis, window);
    BootAcceptsIff(e, genesis, window);
    DipIndexed(e.store, genesis);
    DipKeys(score, genesis);
  }

  lemma DipIndexed(store: BlockDb, genesis: Block)
    requires genesis.Genesis? && Indexes(store, Plain(Plain(Plain(genesis, 5), 3), 12))
    ensures store.cursor == 3 && 2 in store.index && store.index[2] == Plain(Plain(genesis, 5), 3)
  {
    var tip := Plain(Plain(Plain(genesis, 5), 3), 12);
    assert IndexedAt(store, tip, 2);
    assert AncestorAt(tip, 2) == tip.prev;
  }

  lemma DipKeys(score: Score, genesis: Block)
    requires ByHash(score) && genesis.Genesis?
    ensures !Outranks(score, genesis, RestartKey(genesis), Plain(Plain(genesis, 5), 3))
  {
    var s1 := Plain(genesis, 5);
    assert ReplayKey(score, genesis, RestartKey(genesis), s1) == 5.0;
    assert ReplayKey(score, genesis, RestartKey(genesis), Plain(s1, 3)) == 3.0;
  }
}
