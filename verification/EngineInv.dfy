/** Every engine step keeps the invariant; what follows for every run. */
module EngineInv {
  import opened Options
  import opened Blocks
  import opened ForkTree
  import opened StateView
  import opened BlockStore
  import opened SideEviction
  import opened Engine

  // ------------------------------------------------------------ queue facts

  /** The roll at the front of a path is valid against the tree. */
  lemma FrontRollValid(f: Forest, q: seq<PersistJob>)
    requires RollsPath(f.root, q, f.head, f.sched) && q != [] && q[0].roll.Some?
    ensures ValidRoll(f, q[0].roll.value)
    ensures Above(q[0].roll.value.newRoot, q[0].chunk)
  {
    AboveTransitive(q[0].roll.value.newRoot, q[0].chunk, f.head);
  }

  /** The path of rolls leads from `r` up to the scheduled root. */
  lemma RollsAbove(r: Chunk, q: seq<PersistJob>, head: Chunk, sched: Chunk)
    requires RollsPath(r, q, head, sched)
    ensures Above(r, sched)
    decreases |q|
  {
    if q != [] {
      var r' := if q[0].roll.Some? then q[0].roll.value.newRoot else r;
      RollsAbove(r', q[1..], head, sched);
      AboveTransitive(r, r', sched);
    }
  }

  /** Appending a job that extends the head. */
  lemma RollsAppend(r: Chunk, q: seq<PersistJob>, head: Chunk, sched: Chunk, j: PersistJob, sched': Chunk)
    requires RollsPath(r, q, head, sched)
    requires j.chunk.Node? && Above(sched, j.chunk.parent) && (q == [] || Above(head, j.chunk))
    requires match j.roll
             case None => sched' == sched
             case Some(job) => JobFrom(sched, job) && Above(job.newRoot, j.chunk) && job.newRoot == sched'
    ensures RollsPath(r, q + [j], j.chunk, sched')
    decreases |q|
  {
    if q == [] {
      assert (q + [j])[1..] == [];
    } else {
      var r' := if q[0].roll.Some? then q[0].roll.value.newRoot else r;
      RollsAppend(r', q[1..], head, sched, j, sched');
      assert (q + [j])[1..] == q[1..] + [j];
      AboveTransitive(q[0].chunk, head, j.chunk);
    }
  }

  // ------------------------------------------------------------ what the invariant gives

  lemma ReachedBelowTip(e: Eng, genesis: Block, window: nat)
    requires Inv(e, genesis, window)
    ensures AncEq(Reached(e), PersistedHead(e)) && AncEq(e.f.root.block, PersistedHead(e))
    ensures Linked(PersistedHead(e)) && AncEq(e.f.root.block, e.f.head.block)
  {
    InTreeFacts(e.f, e.f.head);
    if e.queue == [] || e.replay.Some? {
      if e.stage.Written? {
        FrontRollValid(e.f, e.queue);
        InTreeAbove(e.f, e.queue[0].roll.value.newRoot, e.f.head);
        InTreeFacts(e.f, e.queue[0].roll.value.newRoot);
        AboveFacts(e.queue[0].roll.value.newRoot, e.f.head);
        AncEqTransitive(Reached(e), e.f.head.block, PersistedHead(e));
      }
      AncEqTransitive(e.f.root.block, e.f.head.block, PersistedHead(e));
    } else {
      FrontBelowRoot(e, genesis, window);
    }
  }

  lemma FrontBelowRoot(e: Eng, genesis: Block, window: nat)
    requires Inv(e, genesis, window) && e.queue != [] && e.replay.None?
    ensures AncEq(Reached(e), PersistedHead(e)) && AncEq(e.f.root.block, PersistedHead(e))
  {
    var j := e.queue[0];
    QueuedLive(e, genesis, window, 0);
    InTreeFacts(e.f, j.chunk);
    if e.stage.Committed? {
    } else {
      assert Above(e.f.root, j.chunk.parent);
      AboveFacts(e.f.root, j.chunk.parent);
      if e.stage.Written? {
        FrontRollValid(e.f, e.queue);
        AboveFacts(j.roll.value.newRoot, j.chunk);
      }
    }
  }

  /** Queued chunks are live, and only a just committed one can be the root itself. */
  lemma QueuedLive(e: Eng, genesis: Block, window: nat, i: nat)
    requires Inv(e, genesis, window) && i < |e.queue|
    ensures InTree(e.f, e.queue[i].chunk) && Above(e.queue[i].chunk, e.f.head)
    ensures || (e.stage.Committed? && i == 0)
            || (e.queue[i].chunk.Node? && Above(e.f.root, e.queue[i].chunk.parent) && e.queue[i].chunk != e.f.root)
  {
    var q := e.queue;
    QueueClimbs(q, e.f.head, i);
    if e.stage.Committed? && i == 0 {
      InTreeAbove(e.f, q[0].chunk, e.f.head);
    } else {
      QueuedBelow(e, i);
      NoCycle(q[i].chunk, e.f.root);
      AboveTransitive(e.f.root, q[i].chunk.parent, q[i].chunk);
      InTreeAbove(e.f, q[i].chunk, e.f.head);
    }
  }

  lemma QueuedBelow(e: Eng, i: nat)
    requires RollsPath(e.f.root, Left(e), e.f.head, e.f.sched) && BlocksPath(e.queue, e.f.head)
    requires e.stage.Committed? && e.queue != [] ==> Above(e.f.root, e.queue[0].chunk)
    requires i < |e.queue| && (e.stage.Committed? ==> i > 0)
    ensures Above(e.f.root, e.queue[i].chunk.parent)
  {
    var q := e.queue;
    if i == 0 {
    } else {
      ClimbsFrom(q, 0, i - 1);
      if !e.stage.Committed? {
        AboveTransitive(e.f.root, q[0].chunk.parent, q[0].chunk);
      }
      AboveTransitive(e.f.root, q[0].chunk, q[i - 1].chunk);
    }
  }

  lemma QueueClimbs(q: seq<PersistJob>, head: Chunk, i: nat)
    requires i < |q| && q[|q| - 1].chunk == head
    requires forall i :: 0 <= i < |q| ==> q[i].chunk.Node?
    requires forall i :: 0 < i < |q| ==> q[i].chunk.parent == q[i - 1].chunk
    ensures Above(q[0].chunk, q[i].chunk) && Above(q[i].chunk, head)
  {
    ClimbsFrom(q, 0, i);
    ClimbsFrom(q, i, |q| - 1);
  }

  lemma ClimbsFrom(q: seq<PersistJob>, i: nat, j: nat)
    requires i <= j < |q|
    requires forall i :: 0 <= i < |q| ==> q[i].chunk.Node?
    requires forall i :: 0 < i < |q| ==> q[i].chunk.parent == q[i - 1].chunk
    ensures Above(q[i].chunk, q[j].chunk)
  {
    if i < j {
      ClimbsFrom(q, i, j - 1);
    }
  }

  // ------------------------------------------------------------ writes to the block store

  lemma PutBodyKeeps(db: BlockDb, p: Block, b: Block)
    requires Indexes(db, p)
    ensures Indexes(PutBody(db, b, b), p)
  {
    forall h: nat ensures IndexedAt(PutBody(db, b, b), p, h) {
      assert IndexedAt(db, p, h);
    }
  }

  /** More stored blocks, fewer live chunks: the bodies stay accounted for. */
  lemma BodiesKept(f: Forest, store: BlockDb, unsaved: seq<PersistJob>, f': Forest, store': BlockDb)
    requires Bodies(f, store, unsaved)
    requires forall c :: InTree(f', c) ==> InTree(f, c)
    requires f'.root == f.root || !InTree(f', f.root)
    requires forall x :: Stored(store, x) ==> Stored(store', x)
    ensures Bodies(f', store', unsaved)
  {
    forall c | InTree(f', c) ensures HasBody(f', store', unsaved, c) {
      assert HasBody(f, store, unsaved, c);
    }
  }

  lemma KeepsSideBody(e: Eng, b: Block, key: real, e': Eng, genesis: Block, window: nat)
    requires Inv(e, genesis, window) && Step(e, SideBody(b, key), e', genesis, window)
    ensures Inv(e', genesis, window)
  {
    PutBodyKeeps(e.store, PersistedHead(e), b);
    BodiesKept(e.f, e.store, Unsaved(e), e.f, e'.store);
  }

  lemma SaveReorgAccepted(e: Eng, genesis: Block, window: nat)
    requires Inv(e, genesis, window) && e.stage.Waiting? && e.queue != [] && e.replay.None? && e.queue[0].reorg
    ensures SaveBlock(e).Some? && Indexes(SaveBlock(e).value, e.queue[0].chunk.block)
  {
    ReorgReady(e, genesis, window);
    ReorgIndexes(e.store, PersistedHead(e), e.f.root.block, e.f.head.block);
  }

  lemma SaveAppendAccepted(e: Eng, genesis: Block, window: nat)
    requires Inv(e, genesis, window) && e.stage.Waiting? && e.queue != [] && e.replay.None? && !e.queue[0].reorg
    ensures SaveBlock(e).Some? && Indexes(SaveBlock(e).value, e.queue[0].chunk.block)
  {
    AppendReady(e, genesis, window);
    AppendIndexes(e.store, PersistedHead(e), e.queue[0].chunk.block);
  }

  /** A save stores the body of its block and no other. */
  lemma SaveStoresBody(e: Eng)
    requires e.queue != [] && e.replay.None? && SaveBlock(e).Some?
    ensures SaveBlock(e).value.bodies == PutBody(e.store, e.queue[0].chunk.block, e.queue[0].chunk.block).bodies
  {
  }

  /** The block write of a reachable state is always accepted and indexes the new head. */
  lemma SaveAccepted(e: Eng, genesis: Block, window: nat)
    requires Inv(e, genesis, window) && e.stage.Waiting? && e.queue != [] && e.replay.None?
    ensures SaveBlock(e).Some? && Indexes(SaveBlock(e).value, e.queue[0].chunk.block)
    ensures SaveBlock(e).value.bodies == PutBody(e.store, e.queue[0].chunk.block, e.queue[0].chunk.block).bodies
  {
    if e.queue[0].reorg {
      SaveReorgAccepted(e, genesis, window);
    } else {
      SaveAppendAccepted(e, genesis, window);
    }
    SaveStoresBody(e);
  }

  lemma AppendReady(e: Eng, genesis: Block, window: nat)
    requires Inv(e, genesis, window) && e.stage.Waiting? && e.queue != [] && e.replay.None? && !e.queue[0].reorg
    ensures var b := e.queue[0].chunk.block; b.Child? && Linked(b) && b.prev == PersistedHead(e)
  {
    QueuedLive(e, genesis, window, 0);
    InTreeFacts(e.f, e.queue[0].chunk);
  }

  /** Before a reorg is written, the older blocks of the new branch are stored. */
  lemma ReorgReady(e: Eng, genesis: Block, window: nat)
    requires Inv(e, genesis, window) && e.stage.Waiting? && e.queue != [] && e.replay.None? && e.queue[0].reorg
    ensures var b := e.f.head.block;
            && e.queue[0].chunk == e.f.head && Linked(b) && AncEq(e.f.root.block, b) && HeightOf(e.f.root) < Height(b)
            && BranchStored(e.store, b, HeightOf(e.f.root))
  {
    QueuedLive(e, genesis, window, 0);
    InTreeFacts(e.f, e.f.head);
    AboveFacts(e.f.root, e.f.head);
    assert Unsaved(e) == e.queue && e.queue == [e.queue[0]];
    BranchBodies(e.f, e.store, e.queue[0]);
  }

  /** With only the head unsaved, the live branch below it is stored. */
  lemma BranchBodies(f: Forest, store: BlockDb, j: PersistJob)
    requires Valid(f) && Bodies(f, store, [j]) && j.chunk == f.head && Linked(f.head.block)
    ensures BranchStored(store, f.head.block, HeightOf(f.root))
  {
    InTreeFacts(f, f.head);
    forall h | HeightOf(f.root) < h < HeightOf(f.head) ensures Stored(store, AncestorAt(f.head.block, h)) {
      var c := ChunkAt(f.root, f.head, h);
      InTreeAbove(f, c, f.head);
      assert HasBody(f, store, [j], c);
      AboveFacts(c, f.head);
      AncEqHeight(c.block, f.head.block);
    }
  }

  /** Storing the first unsaved block accounts for its chunk. */
  lemma BodiesSaved(f: Forest, store: BlockDb, q: seq<PersistJob>, store': BlockDb)
    requires Bodies(f, store, q) && q != []
    requires store'.bodies == PutBody(store, q[0].chunk.block, q[0].chunk.block).bodies
    ensures Bodies(f, store', q[1..])
  {
    forall c | InTree(f, c) ensures HasBody(f, store', q[1..], c) {
      assert HasBody(f, store, q, c);
      if i :| 0 <= i < |q| && q[i].chunk == c {
        if i > 0 { assert q[1..][i - 1].chunk == c; }
      }
    }
  }

  lemma KeepsStoreWrite(e: Eng, e': Eng, genesis: Block, window: nat)
    requires Inv(e, genesis, window) && Step(e, StoreWrite, e', genesis, window)
    ensures Inv(e', genesis, window)
  {
    if e.replay.None? {
      SaveAccepted(e, genesis, window);
      BodiesSaved(e.f, e.store, e.queue, e'.store);
      SavedTip(e, genesis, window);
    }
  }

  lemma SavedTip(e: Eng, genesis: Block, window: nat)
    requires Inv(e, genesis, window) && e.queue != []
    ensures AncEq(genesis, e.queue[0].chunk.block)
  {
    QueuedLive(e, genesis, window, 0);
    TipFromGenesis(e, genesis, window);
  }

  /** Live blocks grow from the same genesis. */
  lemma TipFromGenesis(e: Eng, genesis: Block, window: nat)
    requires Inv(e, genesis, window)
    ensures forall c :: InTree(e.f, c) ==> AncEq(genesis, c.block)
  {
    ReachedBelowTip(e, genesis, window);
    var p := PersistedHead(e);
    AncEqComparable(genesis, e.f.root.block, p);
    if !AncEq(genesis, e.f.root.block) {
      AncEqHeight(e.f.root.block, genesis);
    }
    forall c | InTree(e.f, c) ensures AncEq(genesis, c.block) {
      InTreeFacts(e.f, c);
      AncEqTransitive(genesis, e.f.root.block, c.block);
    }
  }

  // ------------------------------------------------------------ finishing a job

  /** Once the front job is done, the tip it stored is what the rest of the queue builds on. */
  lemma PopTip(q: seq<PersistJob>, head: Chunk)
    requires BlocksPath(q, head) && q != []
    ensures BlocksPath(q[1..], head)
    ensures q[0].chunk.block == if q[1..] == [] then head.block else q[1..][0].prevHead
    ensures NoReorg(q[1..])
  {
    if |q| > 1 {
      var r := q[1..];
      assert forall i :: 0 <= i < |r| ==> r[i] == q[i + 1];
    }
  }

  lemma KeepsJobDone(e: Eng, e': Eng, genesis: Block, window: nat)
    requires Inv(e, genesis, window) && Step(e, JobDone, e', genesis, window)
    ensures Inv(e', genesis, window)
  {
    PopTip(e.queue, e.f.head);
  }

  lemma KeepsEndMove(e: Eng, e': Eng, genesis: Block, window: nat)
    requires Inv(e, genesis, window) && Step(e, EndMove, e', genesis, window)
    ensures Inv(e', genesis, window)
  {
    PopTip(e.queue, e.f.head);
  }

  // ------------------------------------------------------------ the root move

  lemma KeepsBeginMove(e: Eng, e': Eng, genesis: Block, window: nat)
    requires Inv(e, genesis, window) && Step(e, BeginMove, e', genesis, window)
    ensures Inv(e', genesis, window)
  {
  }

  lemma KeepsBatchWrite(e: Eng, e': Eng, genesis: Block, window: nat)
    requires Inv(e, genesis, window) && Step(e, BatchWrite, e', genesis, window)
    ensures Inv(e', genesis, window)
  {
    FrontRollValid(e.f, e.queue);
    BatchHolds(e.f, e.db, e.queue[0].roll.value);
  }

  lemma CommitTree(f: Forest, job: RollJob, rest: seq<PersistJob>, window: nat)
    requires TreeOk(f, window) && ValidRoll(f, job) && RollsPath(job.newRoot, rest, f.head, f.sched)
    ensures TreeOk(CommitRoll(f, job), window)
    ensures RollsPath(job.newRoot, rest, f.head, f.sched)
  {
    CommitRollValid(f, job);
    RollsAbove(job.newRoot, rest, f.head, f.sched);
  }

  lemma CommitBodies(f: Forest, job: RollJob, store: BlockDb, unsaved: seq<PersistJob>)
    requires Valid(f) && ValidRoll(f, job) && Bodies(f, store, unsaved)
    ensures Bodies(CommitRoll(f, job), store, unsaved)
  {
    CommitRollValid(f, job);
    AboveSize(f.root, job.newRoot);
    if Above(job.newRoot, f.root) { AboveSize(job.newRoot, f.root); }
    BodiesKept(f, store, unsaved, CommitRoll(f, job), store);
  }

  lemma KeepsCommitMove(e: Eng, e': Eng, genesis: Block, window: nat)
    requires Inv(e, genesis, window) && Step(e, CommitMove, e', genesis, window)
    ensures Inv(e', genesis, window)
  {
    var job := e.queue[0].roll.value;
    CommitTree(e.f, job, e.queue[1..], window);
    CommitRollValid(e.f, job);
    CommitBodies(e.f, job, e.store, Unsaved(e));
    assert Left(e') == e.queue[1..] && Unsaved(e') == Unsaved(e);
    assert PersistedHead(e') == PersistedHead(e) && Reached(e') == Reached(e);
  }

  // ------------------------------------------------------------ eviction

  lemma KeepsEvict(e: Eng, capacity: nat, e': Eng, genesis: Block, window: nat)
    requires Inv(e, genesis, window) && Step(e, Evict(capacity), e', genesis, window)
    ensures Inv(e', genesis, window)
  {
    EvictTree(e.f, e'.f, capacity, window);
    BodiesKept(e.f, e.store, Unsaved(e), e'.f, e.store);
    assert e'.queue == e.queue && e'.stage == e.stage && Left(e') == Left(e) && Unsaved(e') == Unsaved(e);
    assert PersistedHead(e') == PersistedHead(e) && Reached(e') == Reached(e);
  }

  lemma EvictTree(f: Forest, g: Forest, capacity: nat, window: nat)
    requires TreeOk(f, window) && Evicted(f, g, capacity)
    ensures TreeOk(g, window) && g.root == f.root && g.head == f.head && g.sched == f.sched
    ensures forall c :: InTree(g, c) ==> InTree(f, c)
  {
    EvictedKeeps(f, g, capacity);
  }

  // ------------------------------------------------------------ attaching a head

  /** When an attach may become head: strict only with every roll committed, linear only on
      the head. */
  predicate Serialized(f: Forest, chunk: Chunk, linear: bool) {
    chunk.Node? && if linear then chunk.parent == f.head else f.sched == f.root
  }

  lemma SchedBelow(f: Forest, chunk: Chunk, window: nat, linear: bool)
    requires TreeOk(f, window) && Opened(chunk) && Serialized(f, chunk, linear)
    requires InTree(f, chunk.parent) && HeightOf(chunk) == HeightOf(chunk.parent) + 1
    ensures Above(f.sched, chunk.parent) && Above(f.sched, chunk) && WellLinked(chunk) && Linked(chunk.block)
    ensures HeightOf(f.sched) < HeightOf(chunk)
  {
    InTreeFacts(f, chunk.parent);
    AboveFacts(f.sched, chunk.parent);
  }

  /** Planning never fails: every block that may attach in a reachable state does attach, in
      either mode; fast sync needs a window of at least one. */
  lemma PlanNeverFails(f: Forest, chunk: Chunk, window: nat, linear: bool)
    requires TreeOk(f, window) && Opened(chunk) && Serialized(f, chunk, linear)
    requires MayAttach(f, chunk.block.prev, chunk) && chunk.key > f.head.key
    requires linear ==> window >= 1
    ensures var r := Attach(f, chunk.block.prev, chunk, window, linear); r.Attached? && r.inserted.isHead
  {
    SchedBelow(f, chunk, window, linear);
  }

  /** Fast sync with a window of zero never attaches anything. */
  lemma ZeroWindowRefusesLinear(f: Forest, chunk: Chunk)
    requires TreeOk(f, 0) && Opened(chunk)
    ensures Attach(f, chunk.block.prev, chunk, 0, true).Refused?
  {
    if MayAttach(f, chunk.block.prev, chunk) && chunk.parent == f.head && chunk.key > f.head.key {
      SchedBelow(f, chunk, 0, true);
    }
  }

  /** The parts of an attach that becomes head. */
  lemma AttachShape(f: Forest, chunk: Chunk, window: nat, linear: bool)
    requires Valid(f) && Opened(chunk)
    requires var r := Attach(f, chunk.block.prev, chunk, window, linear); r.Attached? && r.inserted.isHead
    ensures var r := Attach(f, chunk.block.prev, chunk, window, linear);
            && InTree(f, chunk.parent) && HeightOf(chunk) == HeightOf(chunk.parent) + 1 && WellLinked(chunk)
            && r.forest.root == f.root && r.forest.head == chunk && (r.inserted.reorg <==> chunk.parent != f.head)
            && RollFor(f, chunk, window, linear) == Some(r.inserted.roll)
            && r.forest.sched == match r.inserted.roll case None => f.sched case Some(job) => job.newRoot
  {
    InTreeFacts(f, chunk.parent);
  }

  /** What an attach that becomes head does to the tree and which roll it hands on. */
  lemma AttachTree(f: Forest, chunk: Chunk, window: nat, linear: bool)
    requires TreeOk(f, window) && Opened(chunk) && InRange(f, HeightOf(chunk)) && Serialized(f, chunk, linear)
    requires var r := Attach(f, chunk.block.prev, chunk, window, linear); r.Attached? && r.inserted.isHead
    ensures var r := Attach(f, chunk.block.prev, chunk, window, linear);
            && TreeOk(r.forest, window) && r.forest.root == f.root && r.forest.head == chunk
            && Above(f.sched, chunk.parent)
            && (r.inserted.reorg <==> chunk.parent != f.head)
            && (match r.inserted.roll
                case None => r.forest.sched == f.sched
                case Some(job) => JobFrom(f.sched, job) && Above(job.newRoot, chunk) && job.newRoot == r.forest.sched)
  {
    AttachShape(f, chunk, window, linear);
    AttachValid(f, chunk.block.prev, chunk, window, linear);
    SchedBelow(f, chunk, window, linear);
    var r := Attach(f, chunk.block.prev, chunk, window, linear);
    AttachTreeFrom(f, chunk, window, linear, r.forest, r.inserted.roll);
  }

  lemma AttachTreeFrom(f: Forest, chunk: Chunk, window: nat, linear: bool, g: Forest, roll: Option<RollJob>)
    requires TreeOk(f, window) && InRange(f, HeightOf(chunk)) && WellLinked(chunk) && Above(f.sched, chunk)
    requires HeightOf(f.sched) < HeightOf(chunk) && RollFor(f, chunk, window, linear) == Some(roll)
    requires Valid(g) && InTree(g, chunk) && g.root == f.root && g.head == chunk
    requires g.sched == match roll case None => f.sched case Some(job) => job.newRoot
    ensures TreeOk(g, window)
    ensures roll.Some? ==> JobFrom(f.sched, roll.value) && Above(roll.value.newRoot, chunk)
  {
    if roll.Some? {
      AttachRoll(f, chunk, window, linear);
    }
    InTreeFacts(f, f.sched);
    AboveTransitive(f.root, f.sched, g.sched);
    InTreeAbove(g, g.sched, chunk);
  }

  lemma AttachRoll(f: Forest, chunk: Chunk, window: nat, linear: bool)
    requires WellLinked(chunk) && Above(f.sched, chunk) && HeightOf(f.sched) < HeightOf(chunk)
    requires HeightOf(chunk) <= HeightOf(f.sched) + window + 1
    requires RollFor(f, chunk, window, linear).Some? && RollFor(f, chunk, window, linear).value.Some?
    ensures var job := RollFor(f, chunk, window, linear).value.value;
            && JobFrom(f.sched, job) && Above(job.newRoot, chunk)
            && HeightOf(chunk) <= HeightOf(job.newRoot) + window
  {
  }

  lemma BlocksAppend(q: seq<PersistJob>, head: Chunk, j: PersistJob)
    requires BlocksPath(q, head) && j.chunk.Node?
    requires !j.reorg ==> j.prevHead == j.chunk.parent.block
    requires q != [] ==> NoReorg(q) && !j.reorg && j.chunk.parent == head
    ensures BlocksPath(q + [j], j.chunk)
    ensures NoReorg(q) && !j.reorg ==> NoReorg(q + [j])
  {
  }

  /** The new chunk's body is stored or its job will store it. */
  lemma BodiesAttached(f: Forest, f': Forest, store: BlockDb, unsaved: seq<PersistJob>, more: seq<PersistJob>,
                       chunk: Chunk)
    requires Bodies(f, store, unsaved) && f'.root == f.root
    requires forall c :: InTree(f', c) ==> c == chunk || InTree(f, c)
    requires Stored(store, chunk.block) || exists i :: 0 <= i < |more| && more[i].chunk == chunk
    ensures Bodies(f', store, unsaved + more)
  {
    var all := unsaved + more;
    forall c | InTree(f', c) ensures HasBody(f', store, all, c) {
      if c == chunk {
        if i :| 0 <= i < |more| && more[i].chunk == chunk {
          assert all[|unsaved| + i].chunk == c;
        }
      } else {
        assert HasBody(f, store, unsaved, c);
        if i :| 0 <= i < |unsaved| && unsaved[i].chunk == c {
          assert all[i].chunk == c;
        }
      }
    }
  }

  /** `e'` is `e` with the one job `j` for a new head, every earlier roll committed. */
  ghost predicate Heads(e: Eng, j: PersistJob, e': Eng) {
    && e.replay.None? && e.queue == [] && e.stage.Waiting?
    && e' == e.(f := e'.f, queue := [j], pending := e'.pending)
    && j.chunk.Node? && j.prevHead == e.f.head.block && (j.reorg <==> j.chunk.parent != e.f.head)
    && e'.f.root == e.f.root && e'.f.head == j.chunk && Above(e.f.sched, j.chunk.parent)
    && (match j.roll
        case None => e'.f.sched == e.f.sched
        case Some(job) => JobFrom(e.f.sched, job) && Above(job.newRoot, j.chunk) && job.newRoot == e'.f.sched)
    && (forall c :: InTree(e'.f, c) ==> c == j.chunk || InTree(e.f, c))
  }

  lemma HeadAttachHeads(e: Eng, chunk: Chunk, e': Eng, genesis: Block, window: nat) returns (j: PersistJob)
    requires Inv(e, genesis, window) && Step(e, HeadAttach(chunk), e', genesis, window)
    ensures j.chunk == chunk && Heads(e, j, e') && TreeOk(e'.f, window)
  {
    AttachTree(e.f, chunk, window, false);
    AttachValid(e.f, chunk.block.prev, chunk, window, false);
    j := e'.queue[0];
    assert e.queue + [j] == [j];
  }

  lemma KeepsHeadAttach(e: Eng, chunk: Chunk, e': Eng, genesis: Block, window: nat)
    requires Inv(e, genesis, window) && Step(e, HeadAttach(chunk), e', genesis, window)
    ensures Inv(e', genesis, window)
  {
    var j := HeadAttachHeads(e, chunk, e', genesis, window);
    InTreeFacts(e.f, e.f.head);
    HeadQueue(e, j, e');
    HeadBodies(e, j, e');
  }

  lemma HeadQueue(e: Eng, j: PersistJob, e': Eng)
    requires Heads(e, j, e') && StageOk(e) && RollsPath(e.f.root, Left(e), e.f.head, e.f.sched)
    requires AncEq(e.f.root.block, e.f.head.block)
    ensures RollsPath(e'.f.root, Left(e'), e'.f.head, e'.f.sched) && BlocksPath(e'.queue, e'.f.head) && StageOk(e')
    ensures PersistedHead(e') == PersistedHead(e) && Reached(e') == Reached(e)
  {
    RollsAppend(e.f.root, [], e.f.head, e.f.sched, j, e'.f.sched);
    assert [] + [j] == [j];
  }

  lemma HeadBodies(e: Eng, j: PersistJob, e': Eng)
    requires Heads(e, j, e') && Bodies(e.f, e.store, Unsaved(e))
    ensures Bodies(e'.f, e'.store, Unsaved(e'))
  {
    assert [j][0].chunk == j.chunk && [] + [j] == [j];
    BodiesAttached(e.f, e'.f, e.store, [], [j], j.chunk);
  }

  /** `e'` is `e` with job `j` for a new head on the old head. */
  ghost predicate Extends(e: Eng, j: PersistJob, e': Eng) {
    && e' == e.(f := e'.f, queue := e.queue + [j], pending := e'.pending)
    && j.chunk.Node? && j.chunk.parent == e.f.head && !j.reorg && j.prevHead == e.f.head.block
    && e'.f.root == e.f.root && e'.f.head == j.chunk
    && (match j.roll
        case None => e'.f.sched == e.f.sched
        case Some(job) => JobFrom(e.f.sched, job) && Above(job.newRoot, j.chunk) && job.newRoot == e'.f.sched)
    && (forall c :: InTree(e'.f, c) ==> c == j.chunk || InTree(e.f, c))
  }

  lemma LinearExtends(e: Eng, chunk: Chunk, e': Eng, genesis: Block, window: nat) returns (j: PersistJob)
    requires Inv(e, genesis, window) && Step(e, LinearAttach(chunk), e', genesis, window)
    ensures j.chunk == chunk && Extends(e, j, e') && TreeOk(e'.f, window)
    ensures HeightOf(chunk) == HeightOf(e.f.head) + 1
  {
    AttachShape(e.f, chunk, window, true);
    var r := Attach(e.f, chunk.block.prev, chunk, window, true);
    AttachTree(e.f, chunk, window, true);
    AttachValid(e.f, chunk.block.prev, chunk, window, true);
    j := PersistJob(chunk, r.inserted.reorg, r.inserted.roll, e.f.head.block);
  }

  lemma KeepsLinearAttach(e: Eng, chunk: Chunk, e': Eng, genesis: Block, window: nat)
    requires Inv(e, genesis, window) && Step(e, LinearAttach(chunk), e', genesis, window)
    ensures Inv(e', genesis, window)
  {
    var j := LinearExtends(e, chunk, e', genesis, window);
    LinearQueue(e, j, e');
    LinearBodies(e, j, e', genesis);
    LinearSame(e, j, e');
  }

  lemma LinearQueue(e: Eng, j: PersistJob, e': Eng)
    requires Extends(e, j, e') && Above(e.f.sched, e.f.head) && NoReorg(e.queue) && StageOk(e)
    requires RollsPath(e.f.root, Left(e), e.f.head, e.f.sched) && BlocksPath(e.queue, e.f.head)
    ensures RollsPath(e'.f.root, Left(e'), e'.f.head, e'.f.sched)
    ensures BlocksPath(e'.queue, e'.f.head) && NoReorg(e'.queue)
  {
    assert Left(e') == Left(e) + [j];
    RollsAppend(e.f.root, Left(e), e.f.head, e.f.sched, j, e'.f.sched);
    BlocksAppend(e.queue, e.f.head, j);
  }

  lemma LinearSame(e: Eng, j: PersistJob, e': Eng)
    requires Extends(e, j, e') && StageOk(e)
    ensures PersistedHead(e') == PersistedHead(e) && Reached(e') == Reached(e) && StageOk(e')
  {
  }

  lemma LinearBodies(e: Eng, j: PersistJob, e': Eng, genesis: Block)
    requires Extends(e, j, e') && Bodies(e.f, e.store, Unsaved(e)) && StageOk(e) && ReplayOk(e)
    requires e.replay.Some? ==>
               && Indexes(e.store, e.replay.value)
               && HeightOf(j.chunk) in e.store.index && e.store.index[HeightOf(j.chunk)] == j.chunk.block
    requires HeightOf(j.chunk) == HeightOf(e.f.head) + 1
    ensures Bodies(e'.f, e'.store, Unsaved(e'))
    ensures e.replay.Some? ==> AncEq(e'.f.head.block, e.replay.value) && OneLine(e'.f)
  {
    var more := if e.replay.Some? then [] else [j];
    if e.replay.Some? {
      ReplayStored(e.store, e.replay.value, j.chunk);
      AncEqHeight(j.chunk.block, e.replay.value);
    } else {
      assert more[0].chunk == j.chunk;
    }
    assert Unsaved(e') == Unsaved(e) + more;
    BodiesAttached(e.f, e'.f, e.store, Unsaved(e), more, j.chunk);
  }

  lemma ReplayStored(store: BlockDb, tip: Block, chunk: Chunk)
    requires Indexes(store, tip) && HeightOf(chunk) in store.index && store.index[HeightOf(chunk)] == chunk.block
    ensures Stored(store, chunk.block) && AncEq(chunk.block, tip)
  {
    assert IndexedAt(store, tip, HeightOf(chunk));
  }

  lemma KeepsSideAttach(e: Eng, chunk: Chunk, e': Eng, genesis: Block, window: nat)
    requires Inv(e, genesis, window) && Step(e, SideAttach(chunk), e', genesis, window)
    ensures Inv(e', genesis, window)
  {
    AttachValid(e.f, chunk.block.prev, chunk, window, false);
    BodiesAttached(e.f, e'.f, e.store, [], [], chunk);
  }

  lemma KeepsReplaySide(e: Eng, chunk: Chunk, e': Eng, genesis: Block, window: nat)
    requires Inv(e, genesis, window) && Step(e, ReplaySide(chunk), e', genesis, window)
    ensures Inv(e', genesis, window)
  {
    AddChildValid(e.f, chunk.block.prev, chunk);
    AddChildLive(e.f, chunk);
    BodiesAttached(e.f, e'.f, e.store, [], [], chunk);
  }

  // ------------------------------------------------------------ crash and boot

  /** The tip boot reads from the store is the persisted head. */
  lemma StoredTipIs(e: Eng, genesis: Block, window: nat)
    requires Inv(e, genesis, window)
    ensures StoredTip(e.store, genesis) == PersistedHead(e)
  {
    var p := PersistedHead(e);
    assert IndexedAt(e.store, p, Height(p));
    AncEqHeight(genesis, p);
  }

  /** Crash safety: whatever the stage, the markers name a block whose state the database
      holds, at or below the cursor, indexed under its height with its body stored, and the
      index above it is the contiguous hash-linked branch of the persisted head. */
  lemma CrashSafe(e: Eng, genesis: Block, window: nat)
    requires Inv(e, genesis, window)
    ensures var r := PersistedRoot(e.db, genesis);
            && r == Reached(e) && Holds(e.db, r) && MarkersName(e.db, r)
            && Height(r) <= e.store.cursor
            && (Height(r) > 0 ==> Height(r) in e.store.index && e.store.index[Height(r)] == r && Stored(e.store, r))
            && (Height(r) == 0 ==> r == genesis)
    ensures forall h :: h in e.store.index <==> 1 <= h <= e.store.cursor
    ensures forall h :: 1 < h <= e.store.cursor ==> LinksAt(e.store, h)
  {
    var p, r := PersistedHead(e), Reached(e);
    ReachedBelowTip(e, genesis, window);
    AncEqHeight(r, p);
    assert IndexedAt(e.store, p, Height(r));
    if Height(r) == 0 {
      AncEqHeight(genesis, p);
    }
    forall h: nat ensures h in e.store.index <==> 1 <= h <= e.store.cursor {
      assert IndexedAt(e.store, p, h);
    }
    forall h: nat | 1 < h <= e.store.cursor ensures LinksAt(e.store, h) {
      assert IndexedAt(e.store, p, h) && IndexedAt(e.store, p, h - 1);
      AncestorAtCompose(p, h, h - 1);
    }
  }

  /** The block indexed at `h` is stored and names the block indexed below it. */
  predicate LinksAt(store: BlockDb, h: nat) {
    && h > 0 && h in store.index && h - 1 in store.index && Stored(store, store.index[h])
    && store.index[h].Child? && store.index[h].prev == store.index[h - 1] && Height(store.index[h]) == h
  }

  /** Boot accepts what any crash leaves behind, except in exactly one family of states: a
      side body was stored before the first canonical block, so the store has records but
      no cursor. */
  lemma BootAcceptsIff(e: Eng, genesis: Block, window: nat)
    requires Inv(e, genesis, window)
    ensures BootAccepts(e.store, e.db, genesis) <==> e.store.cursor > 0 || e.store.bodies == map[]
  {
    CrashSafe(e, genesis, window);
    ReachedBelowTip(e, genesis, window);
    AncEqHeight(Reached(e), PersistedHead(e));
    if e.store.cursor == 0 {
      assert e.store.index == map[];
    }
  }

  lemma FreshValid(root: Chunk, window: nat)
    requires root.RootChunk? && Linked(root.block)
    ensures TreeOk(FreshForest(root), window) && OneLine(FreshForest(root))
    ensures forall c :: InTree(FreshForest(root), c) <==> c == root
  {
  }

  lemma KeepsCrash(e: Eng, uid: nat, rootKey: real, e': Eng, genesis: Block, window: nat)
    requires Inv(e, genesis, window) && Step(e, CrashAndBoot(uid, rootKey), e', genesis, window)
    ensures Inv(e', genesis, window)
    ensures PersistedHead(e') == PersistedHead(e) && e'.f.root.block == Reached(e)
  {
    CrashSafe(e, genesis, window);
    StoredTipIs(e, genesis, window);
    ReachedBelowTip(e, genesis, window);
    AncEqHeight(Reached(e), PersistedHead(e));
    FreshValid(e'.f.root, window);
  }

  lemma KeepsReplayDone(e: Eng, e': Eng, genesis: Block, window: nat)
    requires Inv(e, genesis, window) && Step(e, ReplayDone, e', genesis, window)
    ensures Inv(e', genesis, window)
  {
  }

  // ------------------------------------------------------------ every step, every run

  lemma StepKeepsInv(e: Eng, s: EngineStep, e': Eng, genesis: Block, window: nat)
    requires Inv(e, genesis, window) && Step(e, s, e', genesis, window)
    ensures Inv(e', genesis, window)
  {
    match s
    case SideBody(b, key) => KeepsSideBody(e, b, key, e', genesis, window);
    case SideAttach(c) => KeepsSideAttach(e, c, e', genesis, window);
    case HeadAttach(c) => KeepsHeadAttach(e, c, e', genesis, window);
    case LinearAttach(c) => KeepsLinearAttach(e, c, e', genesis, window);
    case StoreWrite => KeepsStoreWrite(e, e', genesis, window);
    case JobDone => KeepsJobDone(e, e', genesis, window);
    case BeginMove => KeepsBeginMove(e, e', genesis, window);
    case BatchWrite => KeepsBatchWrite(e, e', genesis, window);
    case CommitMove => KeepsCommitMove(e, e', genesis, window);
    case EndMove => KeepsEndMove(e, e', genesis, window);
    case Evict(capacity) => KeepsEvict(e, capacity, e', genesis, window);
    case CrashAndBoot(uid, key) => KeepsCrash(e, uid, key, e', genesis, window);
    case ReplaySide(c) => KeepsReplaySide(e, c, e', genesis, window);
    case ReplayDone => KeepsReplayDone(e, e', genesis, window);
  }
}
