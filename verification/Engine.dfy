/** The engine as a step system over the tree, the block database and the state database.

    Every step makes at most one atomic write, so the states between steps are exactly the
    states a crash can expose.  Strict inserts run one persistence job to the end before the
    next; fast sync queues jobs that a second thread works off in order. */
module Engine {
  import opened Options
  import opened Blocks
  import opened ForkTree
  import opened StateView
  import opened BlockStore
  import opened SideEviction

  /** An attached head block waiting for persistence. */
  datatype PersistJob = PersistJob(chunk: Chunk, reorg: bool, roll: Option<RollJob>, prevHead: Block)

  /** How far the first queued job has come: nothing, block stored, root move begun, batch
      on disk, tree root moved. */
  datatype Stage = Waiting | Saved | Moving | Written | Committed

  /** `available` is the flag readers check. `replay` is the stored tip boot is replaying to.
      `pending` is the history cache. */
  datatype Eng = Eng(f: Forest, store: BlockDb, db: KV, queue: seq<PersistJob>, stage: Stage,
                     available: bool, replay: Option<Block>, pending: map<nat, Block>)

  datatype EngineStep =
    | SideBody(block: Block, key: real)
    | SideAttach(chunk: Chunk)
    | HeadAttach(chunk: Chunk)
    | LinearAttach(chunk: Chunk)
    | StoreWrite
    | JobDone
    | BeginMove
    | BatchWrite
    | CommitMove
    | EndMove
    | Evict(capacity: nat)
    | CrashAndBoot(uid: nat, rootKey: real)
    | ReplaySide(chunk: Chunk)
    | ReplayDone

  // ------------------------------------------------------------ derived notions

  /** The head the block database stands for. */
  function PersistedHead(e: Eng): Block {
    if e.replay.Some? then e.replay.value
    else if e.queue == [] then e.f.head.block
    else if e.stage.Waiting? then e.queue[0].prevHead
    else e.queue[0].chunk.block
  }

  /** The block whose state the state database holds. */
  function Reached(e: Eng): Block {
    if e.stage.Written? && e.queue != [] && e.queue[0].roll.Some? then e.queue[0].roll.value.newRoot.block
    else e.f.root.block
  }

  /** Jobs whose block is not stored yet. */
  function Unsaved(e: Eng): seq<PersistJob> {
    if e.replay.Some? || e.queue == [] then [] else if e.stage.Waiting? then e.queue else e.queue[1..]
  }

  /** Jobs whose root move is still to come. */
  function Left(e: Eng): seq<PersistJob> {
    if e.stage.Committed? && e.queue != [] then e.queue[1..] else e.queue
  }

  /** `job` moves the root from `r` along an unbroken chain. */
  predicate JobFrom(r: Chunk, job: RollJob) {
    && job.expectedHash == r.block && job.expectedHeight == HeightOf(r)
    && job.newRoot != r && Above(r, job.newRoot) && job.chain == Path(r, job.newRoot)
  }

  /** The queued rolls form one unbroken path from `r` to the scheduled root. */
  predicate RollsPath(r: Chunk, q: seq<PersistJob>, head: Chunk, sched: Chunk)
    decreases |q|
  {
    if q == [] then r == sched
    else
      && q[0].chunk.Node? && Above(r, q[0].chunk.parent) && Above(q[0].chunk, head)
      && (q[0].roll.Some? ==> JobFrom(r, q[0].roll.value) && Above(q[0].roll.value.newRoot, q[0].chunk))
      && RollsPath(if q[0].roll.Some? then q[0].roll.value.newRoot else r, q[1..], head, sched)
  }

  /** The queued blocks follow one another up to the head; a reorg is queued alone. */
  predicate BlocksPath(q: seq<PersistJob>, head: Chunk) {
    q != [] ==>
      && q[|q| - 1].chunk == head
      && (forall i :: 0 <= i < |q| ==> q[i].chunk.Node?)
      && (forall i :: 0 < i < |q| ==> q[i].chunk.parent == q[i - 1].chunk && !q[i].reorg)
      && (forall i :: 0 <= i < |q| && !q[i].reorg ==> q[i].prevHead == q[i].chunk.parent.block)
      && (q[0].reorg ==> |q| == 1)
  }

  /** The markers name `b`. */
  predicate MarkersName(db: KV, b: Block) {
    Get(db, RootHash) == Some(HashCell(b)) && Get(db, RootHeight) == Some(HeightCell(Height(b)))
  }

  /** A live chunk's body is stored, or its job is still to store it. */
  predicate HasBody(f: Forest, store: BlockDb, unsaved: seq<PersistJob>, c: Chunk) {
    c == f.root || Stored(store, c.block) || exists i :: 0 <= i < |unsaved| && unsaved[i].chunk == c
  }

  ghost predicate Bodies(f: Forest, store: BlockDb, unsaved: seq<PersistJob>) {
    forall c :: InTree(f, c) ==> HasBody(f, store, unsaved, c)
  }

  predicate StageOk(e: Eng) {
    && (e.available <==> e.stage.Waiting? || e.stage.Saved?)
    && (!e.stage.Waiting? ==> e.queue != [])
    && (e.stage.Moving? || e.stage.Written? || e.stage.Committed? ==> e.queue[0].roll.Some?)
    && (e.stage.Committed? ==> Above(e.f.root, e.queue[0].chunk))
    && (e.stage.Waiting? && e.queue != [] && e.queue[0].reorg ==> AncEq(e.f.root.block, e.queue[0].prevHead))
  }

  /** Boot replays one line of blocks along the stored branch and never reorgs; side blocks
      come back only once it has reached the stored tip. */
  ghost predicate ReplayOk(e: Eng) {
    e.replay.Some? ==>
      && AncEq(e.f.head.block, e.replay.value) && NoReorg(e.queue)
      && (e.f.head.block != e.replay.value ==> OneLine(e.f))
  }

  ghost predicate OneLine(f: Forest) {
    forall c :: InTree(f, c) ==> Above(c, f.head)
  }

  predicate NoReorg(q: seq<PersistJob>) {
    forall i :: 0 <= i < |q| ==> !q[i].reorg
  }

  ghost predicate TreeOk(f: Forest, window: nat) {
    && Valid(f) && InTree(f, f.sched) && Above(f.sched, f.head)
    && HeightOf(f.head) <= HeightOf(f.sched) + window
  }

  /** The store indexes the branch of `tip`, and the state database holds `reached`. */
  ghost predicate DiskOk(store: BlockDb, db: KV, tip: Block, reached: Block, genesis: Block) {
    && genesis.Genesis? && AncEq(genesis, tip) && Indexes(store, tip)
    && Holds(db, reached) && MarkersName(db, reached)
  }

  /** What every reachable state satisfies. */
  ghost predicate Inv(e: Eng, genesis: Block, window: nat) {
    && StageOk(e) && ReplayOk(e) && TreeOk(e.f, window)
    && RollsPath(e.f.root, Left(e), e.f.head, e.f.sched)
    && BlocksPath(e.queue, e.f.head)
    && DiskOk(e.store, e.db, PersistedHead(e), Reached(e), genesis)
    && Bodies(e.f, e.store, Unsaved(e))
  }

  // ------------------------------------------------------------ boot

  /** The tip boot resolves from the store. */
  function StoredTip(store: BlockDb, genesis: Block): Block {
    if store.cursor == 0 || store.cursor !in store.index then genesis else store.index[store.cursor]
  }

  /** The checks of `load_persisted_root_block`, `resolve_available_cursor` and `open_state`. */
  predicate BootAccepts(store: BlockDb, db: KV, genesis: Block) {
    match (Get(db, RootHash), Get(db, RootHeight))
    case (Some(HashCell(hash)), Some(HeightCell(height))) =>
      && (height == 0 ==> hash == genesis)
      && (height > 0 ==>
            height in store.index && store.index[height] == hash && Stored(store, hash) && Height(hash) == height)
      && (store.cursor == 0 ==> !HasRecords(store))
      && height <= store.cursor
    case _ => false
  }

  /** What boot accepts, for every disk: markers that name one block at or below the cursor, which
      is genesis or indexed under its height and stored, and no record without a cursor. */
  lemma BootAcceptsMeans(store: BlockDb, db: KV, genesis: Block)
    requires genesis.Genesis?
    ensures var r := PersistedRoot(db, genesis);
            BootAccepts(store, db, genesis) <==>
              && MarkersName(db, r) && Height(r) <= store.cursor
              && (Height(r) == 0 ==> r == genesis)
              && (Height(r) > 0 ==> Height(r) in store.index && store.index[Height(r)] == r && Stored(store, r))
              && (store.cursor == 0 ==> store.bodies == map[] && store.index == map[])
  {
  }

  function PersistedRoot(db: KV, genesis: Block): Block {
    match Get(db, RootHash) case Some(HashCell(hash)) => hash case _ => genesis
  }

  function FreshForest(root: Chunk): Forest {
    Forest(root, root, root, map[], {root}, {root}, 0)
  }

  /** Everything in memory is gone; the root is what the markers name. */
  function Booted(e: Eng, genesis: Block, uid: nat, rootKey: real): Eng {
    Eng(FreshForest(RootChunk(uid, PersistedRoot(e.db, genesis), rootKey)), e.store, e.db, [], Waiting,
        true, Some(StoredTip(e.store, genesis)), map[])
  }

  // ------------------------------------------------------------ steps

  /** The range check of `insert_block`. */
  predicate InRange(f: Forest, height: nat) {
    HeightOf(f.root) < height <= HeightOf(f.head) + 1
  }

  function Remember(pending: map<nat, Block>, reorg: bool, b: Block): map<nat, Block> {
    (if reorg then map[] else pending)[Height(b) := b]
  }

  /** `notify_stable` touches the cache at stable heights only: there an entry stays, is dropped,
      or is the stable block itself (remembered for callbacks, kept if one of them fails). */
  ghost predicate Forgets(p: map<nat, Block>, chain: seq<Chunk>, p': map<nat, Block>) {
    forall h :: h in p || h in p' ==>
      || (h in p && h in p' && p[h] == p'[h])
      || exists i :: 0 <= i < |chain| && HeightOf(chain[i]) == h && (h in p' ==> p'[h] == chain[i].block)
  }

  /** No block of the chain is cached. */
  ghost predicate AllForgotten(chain: seq<Chunk>, p: map<nat, Block>) {
    forall i :: 0 <= i < |chain| ==> !(HeightOf(chain[i]) in p && p[HeightOf(chain[i])] == chain[i].block)
  }

  ghost predicate AttachStep(e: Eng, chunk: Chunk, window: nat, linear: bool, e': Eng) {
    && Valid(e.f) && Opened(chunk) && InRange(e.f, HeightOf(chunk))
    && var r := Attach(e.f, chunk.block.prev, chunk, window, linear);
       && r.Attached? && r.inserted.isHead
       && e' == e.(f := r.forest,
                   queue := e.queue + [PersistJob(chunk, r.inserted.reorg, r.inserted.roll, e.f.head.block)],
                   pending := Remember(e.pending, r.inserted.reorg, chunk.block))
  }

  /** The block write of `persist_one`; replay finds its blocks stored already. */
  function SaveBlock(e: Eng): Option<BlockDb>
    requires e.queue != []
  {
    var b := e.queue[0].chunk.block;
    if e.replay.Some? then Some(e.store)
    else if e.queue[0].reorg then AfterReorg(e.store, Height(b), b, b, Tail(e.f.head.block, HeightOf(e.f.root)))
    else AfterAppend(e.store, Height(b), b, b)
  }

  ghost predicate Step(e: Eng, s: EngineStep, e': Eng, genesis: Block, window: nat) {
    match s
    case SideBody(b, key) =>
      && e.replay.None? && e.queue == [] && b.Child? && InRange(e.f, Height(b))
      && Find(e.f, b.prev).Some? && Height(b) == Height(b.prev) + 1 && Find(e.f, b).None? && key <= e.f.head.key
      && AfterPut(e.store, Height(b), b, b).Some?
      && e' == e.(store := AfterPut(e.store, Height(b), b, b).value)
    case SideAttach(chunk) =>
      && e.replay.None? && e.queue == [] && Valid(e.f) && Opened(chunk) && InRange(e.f, HeightOf(chunk))
      && Stored(e.store, chunk.block) && chunk.key <= e.f.head.key
      && var r := Attach(e.f, chunk.block.prev, chunk, window, false);
         r.Attached? && e' == e.(f := r.forest)
    case HeadAttach(chunk) =>
      e.replay.None? && e.queue == [] && AttachStep(e, chunk, window, false, e')
    case LinearAttach(chunk) =>
      && NoReorg(e.queue)
      && (e.replay.Some? ==> HeightOf(chunk) in e.store.index && e.store.index[HeightOf(chunk)] == chunk.block)
      && AttachStep(e, chunk, window, true, e')
    case StoreWrite =>
      e.stage.Waiting? && e.queue != [] && SaveBlock(e).Some? && e' == e.(store := SaveBlock(e).value, stage := Saved)
    case JobDone =>
      e.stage.Saved? && e.queue != [] && e.queue[0].roll.None? && e' == e.(queue := e.queue[1..], stage := Waiting)
    case BeginMove =>
      && e.stage.Saved? && e.queue != [] && e.queue[0].roll.Some? && ValidRoll(e.f, e.queue[0].roll.value)
      && e' == e.(stage := Moving, available := false)
    case BatchWrite =>
      && e.stage.Moving? && e.queue != [] && e.queue[0].roll.Some?
      && (forall k :: Get(e'.db, k) == Get(BatchResult(e.db, e.queue[0].roll.value), k))
      && e' == e.(stage := Written, db := e'.db)
    case CommitMove =>
      && e.stage.Written? && e.queue != [] && e.queue[0].roll.Some? && ValidRoll(e.f, e.queue[0].roll.value)
      && e' == e.(stage := Committed, f := CommitRoll(e.f, e.queue[0].roll.value))
    case EndMove =>
      && e.stage.Committed? && e.queue != [] && e.queue[0].roll.Some?
      && Forgets(e.pending, e.queue[0].roll.value.chain, e'.pending)
      && e' == e.(stage := Waiting, available := true, queue := e.queue[1..], pending := e'.pending)
    case Evict(capacity) =>
      Evicted(e.f, e'.f, capacity) && e' == e.(f := e'.f)
    case CrashAndBoot(uid, rootKey) =>
      BootAccepts(e.store, e.db, genesis) && e' == Booted(e, genesis, uid, rootKey)
    case ReplaySide(chunk) =>
      && e.replay == Some(e.f.head.block) && e.queue == [] && Opened(chunk)
      && HeightOf(e.f.root) < HeightOf(chunk) && Stored(e.store, chunk.block)
      && var r := AttachSide(e.f, chunk.block.prev, chunk);
         r.Attached? && e' == e.(f := r.forest)
    case ReplayDone =>
      e.replay == Some(e.f.head.block) && e.queue == [] && e' == e.(replay := None)
  }
}
