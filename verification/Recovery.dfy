/** Restarting after a crash: when the replay of the stored branch reaches its tip.

    The fork-choice key of a block is the answer consensus gives for the block and its
    parent's key; a chunk born as a root gets the key of its height.  Replay attaches a block
    only if that key beats the head's. */
module Recovery {
  import opened Options
  import opened Blocks
  import opened ForkTree
  import opened SideEviction
  import opened BlockStore
  import opened Engine
  import opened EngineInv
  import opened EngineRuns

  type Score = (Block, real) -> real

  /** The key of a root, and the default key of every block. */
  function HeightKey(h: nat): real { h as real }

  /** The key boot gives the root it restarts from. */
  function RestartKey(root: Block): real { HeightKey(Height(root)) }

  /** Every key of the step is what consensus answers, and a restarted root has its height's. */
  ghost predicate Keyed(score: Score, e: Eng, s: EngineStep, genesis: Block) {
    match s
    case SideBody(b, key) => b.Child? && (Find(e.f, b.prev).Some? ==> key == score(b, Find(e.f, b.prev).value.key))
    case SideAttach(c) => KeyedChunk(score, c)
    case HeadAttach(c) => KeyedChunk(score, c)
    case LinearAttach(c) => KeyedChunk(score, c)
    case ReplaySide(c) => KeyedChunk(score, c)
    case CrashAndBoot(_, key) => key == RestartKey(PersistedRoot(e.db, genesis))
    case _ => true
  }

  predicate KeyedChunk(score: Score, c: Chunk) {
    c.Node? && c.key == score(c.block, c.parent.key)
  }

  ghost predicate KeyedAt(score: Score, states: seq<Eng>, steps: seq<EngineStep>, genesis: Block, i: nat) {
    i < |states| && i < |steps| && Keyed(score, states[i], steps[i], genesis)
  }

  /** A run whose keys are the answers of `score`. */
  ghost predicate KeyedRun(score: Score, states: seq<Eng>, steps: seq<EngineStep>, genesis: Block, window: nat) {
    && Run(states, steps, genesis, window)
    && forall i :: 0 <= i < |steps| ==> KeyedAt(score, states, steps, genesis, i)
  }

  predicate CrashFree(steps: seq<EngineStep>) {
    forall i :: 0 <= i < |steps| ==> !steps[i].CrashAndBoot?
  }

  // ------------------------------------------------------------ the keys a replay meets

  /** The key `b` gets when its branch is replayed from `root`. */
  function ReplayKey(score: Score, root: Block, rootKey: real, b: Block): real {
    if b == root || b.Genesis? then rootKey else score(b, ReplayKey(score, root, rootKey, b.prev))
  }

  /** In a replay from `root` the block beats its predecessor. */
  predicate Outranks(score: Score, root: Block, rootKey: real, b: Block) {
    b.Child? && ReplayKey(score, root, rootKey, b) > ReplayKey(score, root, rootKey, b.prev)
  }

  /** Every stored canonical block above `root` outranks its predecessor. */
  ghost predicate StoredRises(score: Score, store: BlockDb, root: Block, rootKey: real) {
    forall h :: Height(root) < h <= store.cursor && h in store.index ==>
      Outranks(score, root, rootKey, store.index[h])
  }

  predicate BranchRises(score: Score, root: Block, rootKey: real, b: Block) {
    b == root || (Outranks(score, root, rootKey, b) && BranchRises(score, root, rootKey, b.prev))
  }

  /** Every block of a rising branch above its root outranks its predecessor. */
  lemma {:induction false} RisesBelow(score: Score, root: Block, rootKey: real, a: Block, b: Block)
    requires Linked(b) && AncEq(a, b) && Height(root) < Height(a) && BranchRises(score, root, rootKey, b)
    ensures Outranks(score, root, rootKey, a)
  {
    AncEqHeight(a, b);
    if a != b {
      RisesBelow(score, root, rootKey, a, b.prev);
    }
  }

  ghost predicate OutranksAt(score: Score, root: Block, rootKey: real, b: Block, h: nat) {
    Linked(b) && h <= Height(b) && Outranks(score, root, rootKey, AncestorAt(b, h))
  }

  lemma {:induction false} RisesAll(score: Score, root: Block, rootKey: real, b: Block)
    requires Linked(b) && AncEq(root, b)
    requires forall h :: Height(root) < h <= Height(b) ==> OutranksAt(score, root, rootKey, b, h)
    ensures BranchRises(score, root, rootKey, b)
  {
    AncEqHeight(root, b);
    if b != root {
      assert OutranksAt(score, root, rootKey, b, Height(b));
      forall h | Height(root) < h <= Height(b.prev) ensures OutranksAt(score, root, rootKey, b.prev, h) {
        assert OutranksAt(score, root, rootKey, b, h);
      }
      RisesAll(score, root, rootKey, b.prev);
    }
  }

  /** The condition on the index is the condition on the indexed branch. */
  lemma StoredRisesIff(score: Score, store: BlockDb, root: Block, rootKey: real, tip: Block)
    requires Indexes(store, tip) && AncEq(root, tip)
    ensures StoredRises(score, store, root, rootKey) <==> BranchRises(score, root, rootKey, tip)
  {
    if StoredRises(score, store, root, rootKey) {
      forall h: nat | Height(root) < h <= Height(tip) ensures OutranksAt(score, root, rootKey, tip, h) {
        assert IndexedAt(store, tip, h);
      }
      RisesAll(score, root, rootKey, tip);
    }
    if BranchRises(score, root, rootKey, tip) {
      forall h | Height(root) < h <= store.cursor && h in store.index
        ensures Outranks(score, root, rootKey, store.index[h])
      {
        assert IndexedAt(store, tip, h);
        RisesBelow(score, root, rootKey, store.index[h], tip);
      }
    }
  }

  // ------------------------------------------------------------ a finished replay has risen

  /** The replay has come to its head along outranking blocks. */
  ghost predicate Replayed(score: Score, root: Block, rootKey: real, tip: Block, e: Eng) {
    && e.replay == Some(tip) && AncEq(root, e.f.head.block)
    && e.f.head.key == ReplayKey(score, root, rootKey, e.f.head.block)
    && BranchRises(score, root, rootKey, e.f.head.block)
  }

  /** What a linear attach does to the head. */
  lemma LinearHead(e: Eng, chunk: Chunk, e': Eng, genesis: Block, window: nat)
    requires Inv(e, genesis, window) && Step(e, LinearAttach(chunk), e', genesis, window)
    ensures Opened(chunk) && chunk.parent == e.f.head && chunk.key > e.f.head.key
    ensures HeightOf(chunk) == HeightOf(e.f.head) + 1
    ensures e'.f.head == chunk && e'.f.root == e.f.root && e'.replay == e.replay && e'.store == e.store && e'.db == e.db
  {
    AttachShape(e.f, chunk, window, true);
  }

  lemma HeadReplayed(score: Score, root: Block, rootKey: real, tip: Block, e: Eng, e': Eng)
    requires Replayed(score, root, rootKey, tip, e) && e'.replay == e.replay && Linked(e.f.head.block)
    requires var c := e'.f.head;
             && Opened(c) && c.parent == e.f.head && c.key > e.f.head.key && KeyedChunk(score, c)
             && HeightOf(c) == HeightOf(e.f.head) + 1
    ensures Replayed(score, root, rootKey, tip, e')
  {
    AncEqHeight(root, e.f.head.block);
  }

  lemma LinearReplays(score: Score, root: Block, rootKey: real, tip: Block, e: Eng, chunk: Chunk, e': Eng,
                      genesis: Block, window: nat)
    requires Inv(e, genesis, window) && Replayed(score, root, rootKey, tip, e)
    requires Step(e, LinearAttach(chunk), e', genesis, window) && KeyedChunk(score, chunk)
    ensures Replayed(score, root, rootKey, tip, e')
  {
    LinearHead(e, chunk, e', genesis, window);
    InTreeFacts(e.f, e.f.head);
    HeadReplayed(score, root, rootKey, tip, e, e');
  }

  lemma ReplayGoesOn(score: Score, root: Block, rootKey: real, tip: Block, e: Eng, s: EngineStep, e': Eng,
                     genesis: Block, window: nat)
    requires Inv(e, genesis, window) && Replayed(score, root, rootKey, tip, e)
    requires Step(e, s, e', genesis, window) && Keyed(score, e, s, genesis) && !s.CrashAndBoot?
    ensures Replayed(score, root, rootKey, tip, e') || BranchRises(score, root, rootKey, tip)
  {
    if s.LinearAttach? {
      LinearReplays(score, root, rootKey, tip, e, s.chunk, e', genesis, window);
    } else if s.Evict? {
      EvictedKeeps(e.f, e'.f, s.capacity);
    }
  }

  /** Sound states that are still replaying with rising keys, and all once the branch rises. */
  ghost function Replaying(score: Score, root: Block, rootKey: real, tip: Block, genesis: Block,
                           window: nat): iset<Eng> {
    iset e: Eng | Inv(e, genesis, window) &&
                  (Replayed(score, root, rootKey, tip, e) || BranchRises(score, root, rootKey, tip))
  }

  lemma ReplayStaysAt(score: Score, root: Block, rootKey: real, tip: Block, states: seq<Eng>, steps: seq<EngineStep>,
                      genesis: Block, window: nat, i: nat)
    requires KeyedRun(score, states, steps, genesis, window) && CrashFree(steps) && i < |steps|
    ensures StaysAt(Replaying(score, root, rootKey, tip, genesis, window), states, i)
  {
    assert StepAt(states, steps, genesis, window, i) && KeyedAt(score, states, steps, genesis, i);
    if states[i] in Replaying(score, root, rootKey, tip, genesis, window) {
      StepKeepsInv(states[i], steps[i], states[i + 1], genesis, window);
      if !BranchRises(score, root, rootKey, tip) {
        ReplayGoesOn(score, root, rootKey, tip, states[i], steps[i], states[i + 1], genesis, window);
      }
    }
  }

  lemma BootedReplays(score: Score, e: Eng, genesis: Block, window: nat, uid: nat, rootKey: real)
    requires Inv(e, genesis, window) && BootAccepts(e.store, e.db, genesis)
    ensures var b := Booted(e, genesis, uid, rootKey);
            && Inv(b, genesis, window) && b.replay == Some(PersistedHead(e))
            && b.f.head.block == PersistedRoot(e.db, genesis)
            && Replayed(score, PersistedRoot(e.db, genesis), rootKey, PersistedHead(e), b)
            && AncEq(PersistedRoot(e.db, genesis), PersistedHead(e))
  {
    var b := Booted(e, genesis, uid, rootKey);
    KeepsCrash(e, uid, rootKey, b, genesis, window);
    CrashSafe(e, genesis, window);
    ReachedBelowTip(e, genesis, window);
    StoredTipIs(e, genesis, window);
  }

  /** If a restart ever stops replaying, every stored block above its root outranks its
      predecessor. */
  lemma FinishedHasRisen(score: Score, e: Eng, genesis: Block, window: nat, uid: nat, rootKey: real,
                         states: seq<Eng>, steps: seq<EngineStep>, i: nat)
    requires Inv(e, genesis, window) && BootAccepts(e.store, e.db, genesis)
    requires KeyedRun(score, states, steps, genesis, window) && CrashFree(steps) && i < |states|
    requires states[0] == Booted(e, genesis, uid, rootKey) && states[i].replay.None?
    ensures StoredRises(score, e.store, PersistedRoot(e.db, genesis), rootKey)
  {
    var root, tip := PersistedRoot(e.db, genesis), PersistedHead(e);
    BootedReplays(score, e, genesis, window, uid, rootKey);
    forall k | 0 <= k < |steps| ensures StaysAt(Replaying(score, root, rootKey, tip, genesis, window), states, k) {
      ReplayStaysAt(score, root, rootKey, tip, states, steps, genesis, window, k);
    }
    StaysIn(Replaying(score, root, rootKey, tip, genesis, window), states, i);
    StoredRisesIff(score, e.store, root, rootKey, tip);
  }

  // ------------------------------------------------------------ a rising branch can be replayed

  /** The next block of the stored branch continues the head. */
  lemma NextStored(e: Eng, genesis: Block, window: nat)
    requires Inv(e, genesis, window) && e.replay.Some? && e.f.head.block != e.replay.value
    ensures HeightOf(e.f.head) + 1 in e.store.index
    ensures var b := e.store.index[HeightOf(e.f.head) + 1];
            b.Child? && b.prev == e.f.head.block && Height(b) == HeightOf(e.f.head) + 1 && AncEq(b, e.replay.value)
  {
    var t, h := e.replay.value, HeightOf(e.f.head);
    AncEqHeight(e.f.head.block, t);
    assert IndexedAt(e.store, t, h + 1);
    AncestorAtCompose(t, h + 1, h);
  }

  /** Boot can always replay the next stored block, whatever id its chunk gets, if its fork
      key beats the head's and the window is at least one. */
  lemma ReplayAdvances(e: Eng, genesis: Block, window: nat, chunk: Chunk) returns (e': Eng)
    requires Inv(e, genesis, window) && e.replay.Some? && e.f.head.block != e.replay.value && window >= 1
    requires chunk.Node? && chunk.parent == e.f.head && chunk.key > e.f.head.key && chunk !in e.f.frozen
    requires HeightOf(e.f.head) + 1 in e.store.index && chunk.block == e.store.index[HeightOf(e.f.head) + 1]
    ensures Step(e, LinearAttach(chunk), e', genesis, window)
    ensures e'.f.head == chunk && e'.replay == e.replay
  {
    NextStored(e, genesis, window);
    var f := e.f;
    InTreeFacts(f, f.head);
    FindComplete(f, f.head);
    if Find(f, chunk.block).Some? {
      var c := Find(f, chunk.block).value;
      AboveFacts(c, f.head);
    }
    if chunk in f.disk {
      InTreeFacts(f, f.root);
      AncEqHeight(chunk.block, f.root.block);
    }
    PlanNeverFails(f, chunk, window, true);
    var r := Attach(f, chunk.block.prev, chunk, window, true);
    e' := e.(f := r.forest,
             queue := e.queue + [PersistJob(chunk, r.inserted.reorg, r.inserted.roll, f.head.block)],
             pending := Remember(e.pending, r.inserted.reorg, chunk.block));
  }

  ghost function FreshUid(s: set<Chunk>): (n: nat)
    ensures forall c :: c in s ==> c.uid < n
  {
    if s == {} then 0
    else
      var c :| c in s;
      var m := FreshUid(s - {c});
      if c.uid < m then m else c.uid + 1
  }

  /** One replayed block, with the key consensus answers. */
  lemma ReplayStep(score: Score, root: Block, rootKey: real, tip: Block, e: Eng, genesis: Block, window: nat)
      returns (s: EngineStep, e': Eng)
    requires Inv(e, genesis, window) && Replayed(score, root, rootKey, tip, e) && e.f.head.block != tip && window >= 1
    requires BranchRises(score, root, rootKey, tip)
    ensures Step(e, s, e', genesis, window) && s.LinearAttach? && Keyed(score, e, s, genesis)
    ensures Inv(e', genesis, window) && Replayed(score, root, rootKey, tip, e')
    ensures HeightOf(e.f.head) < HeightOf(e'.f.head)
  {
    NextStored(e, genesis, window);
    var b := e.store.index[HeightOf(e.f.head) + 1];
    AncEqHeight(root, e.f.head.block) by { InTreeFacts(e.f, e.f.head); }
    RisesBelow(score, root, rootKey, b, tip);
    var chunk := Node(FreshUid(e.f.frozen), b, score(b, e.f.head.key), e.f.head);
    s := LinearAttach(chunk);
    e' := ReplayAdvances(e, genesis, window, chunk);
    KeepsLinearAttach(e, chunk, e', genesis, window);
    LinearReplays(score, root, rootKey, tip, e, chunk, e', genesis, window);
  }

  /** A crash-free run from `a` to `b` with the keys of `score`. */
  ghost predicate Restarts(score: Score, a: Eng, states: seq<Eng>, steps: seq<EngineStep>, b: Eng,
                           genesis: Block, window: nat) {
    KeyedRun(score, states, steps, genesis, window) && CrashFree(steps) && states[0] == a && states[|steps|] == b
  }

  lemma RestartsThen(score: Score, a: Eng, s1: seq<Eng>, t1: seq<EngineStep>, b: Eng, s2: seq<Eng>, t2: seq<EngineStep>,
                     c: Eng, genesis: Block, window: nat)
    requires Restarts(score, a, s1, t1, b, genesis, window) && Restarts(score, b, s2, t2, c, genesis, window)
    ensures Restarts(score, a, s1 + s2[1..], t1 + t2, c, genesis, window)
  {
    LeadsThen(a, s1, t1, b, s2, t2, c, genesis, window);
    var s, t := s1 + s2[1..], t1 + t2;
    forall i | 0 <= i < |t| ensures KeyedAt(score, s, t, genesis, i) {
      if i < |t1| {
        assert KeyedAt(score, s1, t1, genesis, i);
      } else {
        assert KeyedAt(score, s2, t2, genesis, i - |t1|);
      }
    }
  }

  lemma StepRestarts(score: Score, a: Eng, s: EngineStep, b: Eng, genesis: Block, window: nat)
    requires Step(a, s, b, genesis, window) && Keyed(score, a, s, genesis) && !s.CrashAndBoot?
    ensures Restarts(score, a, [a, b], [s], b, genesis, window)
  {
    StepLeads(a, s, b, genesis, window);
    assert KeyedAt(score, [a, b], [s], genesis, 0);
  }

  lemma PersistingRestarts(score: Score, a: Eng, states: seq<Eng>, steps: seq<EngineStep>, b: Eng, genesis: Block,
                           window: nat)
    requires Leads(a, states, steps, b, genesis, window) && OnlyPersists(steps)
    ensures Restarts(score, a, states, steps, b, genesis, window)
  {
    forall i | 0 <= i < |steps| ensures KeyedAt(score, states, steps, genesis, i) {
      assert Persisting(steps[i]);
    }
  }

  /** Sound states on the way of a replay. */
  ghost function OnTheWay(score: Score, root: Block, rootKey: real, tip: Block, genesis: Block,
                          window: nat): iset<Eng> {
    iset e: Eng | Inv(e, genesis, window) && Replayed(score, root, rootKey, tip, e)
  }

  lemma WayStep(score: Score, root: Block, rootKey: real, tip: Block, e: Eng, genesis: Block, window: nat)
      returns (e': Eng)
    requires e in OnTheWay(score, root, rootKey, tip, genesis, window) && e.f.head.block != tip && window >= 1
    requires BranchRises(score, root, rootKey, tip)
    ensures exists s :: Restarts(score, e, [e, e'], [s], e', genesis, window)
    ensures e' in OnTheWay(score, root, rootKey, tip, genesis, window)
    ensures HeightOf(e.f.head) < HeightOf(e'.f.head) <= Height(tip)
  {
    var s;
    s, e' := ReplayStep(score, root, rootKey, tip, e, genesis, window);
    StepRestarts(score, e, s, e', genesis, window);
    WayBelowTip(score, root, rootKey, tip, e', genesis, window);
  }

  lemma WayBelowTip(score: Score, root: Block, rootKey: real, tip: Block, e: Eng, genesis: Block, window: nat)
    requires e in OnTheWay(score, root, rootKey, tip, genesis, window)
    ensures HeightOf(e.f.head) <= Height(tip)
  {
    AncEqHeight(e.f.head.block, tip);
  }

  lemma {:induction false} Replays(score: Score, root: Block, rootKey: real, tip: Block, e: Eng, genesis: Block,
                                   window: nat)
      returns (states: seq<Eng>, steps: seq<EngineStep>, e': Eng)
    requires e in OnTheWay(score, root, rootKey, tip, genesis, window) && window >= 1
    requires BranchRises(score, root, rootKey, tip) && HeightOf(e.f.head) <= Height(tip)
    ensures Restarts(score, e, states, steps, e', genesis, window)
    ensures e' in OnTheWay(score, root, rootKey, tip, genesis, window) && e'.f.head.block == tip
    decreases Height(tip) - HeightOf(e.f.head)
  {
    if e.f.head.block == tip {
      states, steps, e' := [e], [], e;
    } else {
      var m := WayStep(score, root, rootKey, tip, e, genesis, window);
      var s :| Restarts(score, e, [e, m], [s], m, genesis, window);
      states, steps, e' := Replays(score, root, rootKey, tip, m, genesis, window);
      RestartsThen(score, e, [e, m], [s], m, states, steps, e', genesis, window);
      states, steps := [e, m] + states[1..], [s] + steps;
    }
  }

  /** Boot is over: nothing queued, the tree at `tip`, disk and tree in agreement. */
  ghost predicate Reopened(e: Eng, tip: Block, genesis: Block, window: nat) {
    e in Sound(genesis, window) && e.queue == [] && e.replay.None? && e.f.head.block == tip
  }

  lemma Reopens(score: Score, e: Eng, tip: Block, genesis: Block, window: nat) returns (e': Eng)
    requires e in Sound(genesis, window) && e.replay == Some(tip) && e.f.head.block == tip && e.queue == []
    ensures Restarts(score, e, [e, e'], [ReplayDone], e', genesis, window) && Reopened(e', tip, genesis, window)
  {
    e' := e.(replay := None);
    KeepsReplayDone(e, e', genesis, window);
    StepRestarts(score, e, ReplayDone, e', genesis, window);
  }

  /** A replay at its tip is drained and closed. */
  lemma Closes(score: Score, e: Eng, tip: Block, genesis: Block, window: nat)
      returns (states: seq<Eng>, steps: seq<EngineStep>, e': Eng)
    requires e in Sound(genesis, window) && e.replay == Some(tip) && e.f.head.block == tip
    ensures Restarts(score, e, states, steps, e', genesis, window) && Reopened(e', tip, genesis, window)
  {
    var m;
    states, steps, m := Drains(e, genesis, window);
    PersistingRestarts(score, e, states, steps, m, genesis, window);
    e' := Reopens(score, m, tip, genesis, window);
    RestartsThen(score, e, states, steps, m, [m, e'], [ReplayDone], e', genesis, window);
    states, steps := states + [m, e'][1..], steps + [ReplayDone];
  }

  lemma RisenFinishes(score: Score, e: Eng, genesis: Block, window: nat, uid: nat, rootKey: real)
      returns (states: seq<Eng>, steps: seq<EngineStep>, e': Eng)
    requires e in Sound(genesis, window) && BootAccepts(e.store, e.db, genesis) && window >= 1
    requires StoredRises(score, e.store, PersistedRoot(e.db, genesis), rootKey)
    ensures Restarts(score, Booted(e, genesis, uid, rootKey), states, steps, e', genesis, window)
    ensures Reopened(e', PersistedHead(e), genesis, window)
  {
    var b, root, tip := Booted(e, genesis, uid, rootKey), PersistedRoot(e.db, genesis), PersistedHead(e);
    BootedReplays(score, e, genesis, window, uid, rootKey);
    StoredRisesIff(score, e.store, root, rootKey, tip);
    WayBelowTip(score, root, rootKey, tip, b, genesis, window);
    var m;
    states, steps, m := Replays(score, root, rootKey, tip, b, genesis, window);
    var more, last;
    more, last, e' := Closes(score, m, tip, genesis, window);
    RestartsThen(score, b, states, steps, m, more, last, e', genesis, window);
    states, steps := states + more[1..], steps + last;
  }

  /** Recovery: boot's replay can reach the persisted head and reopen if and only if every
      stored block above the persisted root outranks its predecessor, by the keys consensus
      answers when replaying. */
  lemma ReplayFinishesIff(score: Score, e: Eng, genesis: Block, window: nat, uid: nat, rootKey: real)
    requires e in Sound(genesis, window) && BootAccepts(e.store, e.db, genesis) && window >= 1
    ensures (exists states, steps, e' ::
               && Restarts(score, Booted(e, genesis, uid, rootKey), states, steps, e', genesis, window)
               && Reopened(e', PersistedHead(e), genesis, window))
       <==> StoredRises(score, e.store, PersistedRoot(e.db, genesis), rootKey)
  {
    if StoredRises(score, e.store, PersistedRoot(e.db, genesis), rootKey) {
      var states, steps, e' := RisenFinishes(score, e, genesis, window, uid, rootKey);
      assert Restarts(score, Booted(e, genesis, uid, rootKey), states, steps, e', genesis, window);
    }
    if states, steps, e' :| Restarts(score, Booted(e, genesis, uid, rootKey), states, steps, e', genesis, window)
                            && Reopened(e', PersistedHead(e), genesis, window) {
      FinishedHasRisen(score, e, genesis, window, uid, rootKey, states, steps, |steps|);
    }
  }
}
