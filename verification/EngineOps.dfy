/** The insert and persist paths as they run over tree, block store, state database and
    cache, proved to perform exactly the steps of the engine's step system. */
module EngineOps {
  import opened Options
  import opened Blocks
  import opened ForkTree
  import opened StateView
  import opened BlockStore
  import opened SideEviction
  import opened TreeOps
  import opened Engine
  import opened EngineInv
  import opened EngineRuns
  import opened History

  /** What an insert answers; `Fatal` is a tree refusal after every check has passed. */
  datatype ApplyResult =
    | Unavailable | OutOfRange | Duplicate | NotExtension | Orphan | WrongHeight | Invalid | Fatal
    | Discarded
    | AcceptedSide
    | AcceptedHead(job: PersistJob)

  /** Every chunk of the chain continues its parent. */
  ghost predicate ChainLinked(job: RollJob) {
    forall c :: c in job.chain ==> LinkOk(c)
  }

  // ------------------------------------------------------------ persistence on values

  /** The root move of a job: batch on disk, root promoted, stable blocks announced. */
  ghost predicate Rolled(e: Eng, job: RollJob, e': Eng) {
    && ValidRoll(e.f, job)
    && (forall k :: Get(e'.db, k) == Get(BatchResult(e.db, job), k))
    && Forgets(e.pending, job.chain, e'.pending)
    && e' == e.(f := CommitRoll(e.f, job), db := e'.db, pending := e'.pending, available := true)
  }

  /** A job persisted to the end: its block saved, side branches trimmed after a reorg, its
      root move made. */
  ghost predicate Persisted(e: Eng, capacity: nat, e': Eng) {
    && e.queue != [] && SaveBlock(e).Some?
    && exists g :: PersistedVia(e, g, capacity, e')
  }

  ghost predicate PersistedVia(e: Eng, g: Forest, capacity: nat, e': Eng)
    requires e.queue != [] && SaveBlock(e).Some?
  {
    var j := e.queue[0];
    var saved := e.(store := SaveBlock(e).value, f := g, queue := e.queue[1..]);
    && (if j.reorg && e.replay.None? then Evicted(e.f, g, capacity) else g == e.f)
    && (if j.roll.None? then e' == saved else Rolled(saved, j.roll.value, e'))
  }

  /** The block write of the first job goes through. */
  predicate Saves(e: Eng, accepts: bool) {
    e.queue != [] && (e.replay.Some? || accepts) && SaveBlock(e).Some?
  }

  /** A job whose block was saved and whose root move failed: the state is unavailable, disk
      and root are as they were. */
  ghost predicate SavedOnly(e: Eng, capacity: nat, e': Eng) {
    && e.queue != [] && SaveBlock(e).Some?
    && (if e.queue[0].reorg && e.replay.None? then Evicted(e.f, e'.f, capacity) else e'.f == e.f)
    && e' == e.(store := SaveBlock(e).value, f := e'.f, available := false)
  }

  /** `steps` lead from `e` to `e'`, one after the other. */
  ghost predicate Trace(e: Eng, steps: seq<EngineStep>, e': Eng, genesis: Block, window: nat) {
    exists states :: Leads(e, states, steps, e', genesis, window)
  }

  lemma TraceNone(e: Eng, genesis: Block, window: nat)
    ensures Trace(e, [], e, genesis, window)
  {
    assert Leads(e, [e], [], e, genesis, window);
  }

  lemma TraceStep(a: Eng, s: EngineStep, b: Eng, steps: seq<EngineStep>, c: Eng, genesis: Block, window: nat)
    requires Step(a, s, b, genesis, window) && Trace(b, steps, c, genesis, window)
    ensures Trace(a, [s] + steps, c, genesis, window)
  {
    var states :| Leads(b, states, steps, c, genesis, window);
    LeadsFirst(a, s, b, states, steps, c, genesis, window);
  }

  lemma TraceThen(a: Eng, p: seq<EngineStep>, b: Eng, q: seq<EngineStep>, c: Eng, genesis: Block, window: nat)
    requires Trace(a, p, b, genesis, window) && Trace(b, q, c, genesis, window)
    ensures Trace(a, p + q, c, genesis, window)
  {
    var s :| Leads(a, s, p, b, genesis, window);
    var t :| Leads(b, t, q, c, genesis, window);
    LeadsThen(a, s, p, b, t, q, c, genesis, window);
  }

  const ROOT_MOVE: seq<EngineStep> := [BeginMove] + ([BatchWrite] + ([CommitMove] + ([EndMove] + [])))

  /** A whole root move is the four steps, each enabled. */
  lemma RolledIsTrace(e: Eng, e': Eng, genesis: Block, window: nat)
    requires e.stage.Saved? && e.queue != [] && e.queue[0].roll.Some?
    requires Rolled(e.(queue := e.queue[1..], stage := Waiting), e.queue[0].roll.value, e')
    ensures Trace(e, ROOT_MOVE, e', genesis, window)
  {
    var a := e.(stage := Moving, available := false);
    var b := a.(stage := Written, db := e'.db);
    var c := b.(stage := Committed, f := CommitRoll(e.f, e.queue[0].roll.value));
    TraceNone(e', genesis, window);
    TraceStep(c, EndMove, e', [], e', genesis, window);
    TraceStep(b, CommitMove, c, [EndMove] + [], e', genesis, window);
    TraceStep(a, BatchWrite, b, [CommitMove] + ([EndMove] + []), e', genesis, window);
    TraceStep(e, BeginMove, a, [BatchWrite] + ([CommitMove] + ([EndMove] + [])), e', genesis, window);
  }

  /** The save part of a job: one block write, then the trim of a reorg. */
  lemma SavedIsTrace(e: Eng, g: Forest, capacity: nat, genesis: Block, window: nat)
      returns (steps: seq<EngineStep>, s: Eng)
    requires e.stage.Waiting? && e.queue != [] && SaveBlock(e).Some?
    requires if e.queue[0].reorg && e.replay.None? then Evicted(e.f, g, capacity) else g == e.f
    ensures s == e.(store := SaveBlock(e).value, stage := Saved, f := g) && Trace(e, steps, s, genesis, window)
    ensures steps == [StoreWrite] + if e.queue[0].reorg && e.replay.None? then [Evict(capacity)] else []
  {
    var m := e.(store := SaveBlock(e).value, stage := Saved);
    s := m.(f := g);
    steps := [];
    TraceNone(s, genesis, window);
    if e.queue[0].reorg && e.replay.None? {
      TraceStep(m, Evict(capacity), s, [], s, genesis, window);
      steps := [Evict(capacity)] + [];
    }
    TraceStep(e, StoreWrite, m, steps, s, genesis, window);
    steps := [StoreWrite] + steps;
  }

  /** Persisting a job is a trace of engine steps: save, trim after a reorg, then the root move. */
  lemma PersistedIsTrace(e: Eng, capacity: nat, e': Eng, genesis: Block, window: nat)
      returns (steps: seq<EngineStep>)
    requires e.stage.Waiting? && Persisted(e, capacity, e')
    ensures Trace(e, steps, e', genesis, window)
    ensures var j := e.queue[0];
            steps == ([StoreWrite] + if j.reorg && e.replay.None? then [Evict(capacity)] else [])
                     + if j.roll.None? then [JobDone] else ROOT_MOVE
  {
    var g :| PersistedVia(e, g, capacity, e');
    var save, s := SavedIsTrace(e, g, capacity, genesis, window);
    if e.queue[0].roll.None? {
      TraceNone(e', genesis, window);
      TraceStep(s, JobDone, e', [], e', genesis, window);
      TraceThen(e, save, s, [JobDone] + [], e', genesis, window);
      steps := save + ([JobDone] + []);
    } else {
      RolledIsTrace(s, e', genesis, window);
      TraceThen(e, save, s, ROOT_MOVE, e', genesis, window);
      steps := save + ROOT_MOVE;
    }
  }

  // ------------------------------------------------------------ the engine as it runs

  class ChainEngine {
    const tree: Tree
    const store: KvBlockStore
    const history: StoreHistory
    var db: KV
    var available: bool

    constructor (tree: Tree, store: KvBlockStore, history: StoreHistory, db: KV)
      ensures this.tree == tree && this.store == store && this.history == history && this.db == db && available
    {
      this.tree, this.store, this.history, this.db, available := tree, store, history, db, true;
    }

    function Abs(queue: seq<PersistJob>, stage: Stage, replay: Option<Block>): Eng
      reads this, tree, store, history
    {
      Eng(tree.Abs(), store.Db(), db, queue, stage, available, replay, history.pending)
    }

    /** `roll_root`: unavailable first, then validate, write, commit; a failure anywhere leaves
        the flag down and disk and tree as they were. `accepts` is the disk's answer. */
    method RollRoot(job: RollJob, accepts: bool, replay: bool, unreadable: set<nat>, stops: set<nat>,
                    ghost queue: seq<PersistJob>, ghost mode: Option<Block>) returns (ok: bool)
      requires Valid(tree.Abs()) && ChainLinked(job)
      requires forall b :: b in store.bodies ==> store.bodies[b] == b
      modifies this, tree, history
      ensures ok <==> old(ValidRoll(tree.Abs(), job)) && accepts
      ensures ok ==> Rolled(old(Abs(queue, Waiting, mode)), job, Abs(queue, Waiting, mode))
      ensures !ok ==> Abs(queue, Waiting, mode) == old(Abs(queue, Waiting, mode)).(available := false)
    {
      available := false;
      ok := tree.ValidateRoll(job);
      if !ok || !accepts {
        return false;
      }
      db := WriteRootBatch(db, job);
      ok := tree.CommitRoll(job);
      available := true;
      var _ := history.NotifyStable(store.Db(), job.chain, replay, unreadable, stops);
    }

    /** The reorg write of `persist_one`: the branch of the head above the durable root. */
    method SaveReorg(b: Block, accepts: bool) returns (ok: bool)
      requires Valid(tree.Abs()) && store.tip == store.cursor && b == tree.head.block
      modifies store
      ensures store.tip == store.cursor
      ensures var r := AfterReorg(old(store.Db()), Height(b), b, b, Tail(tree.head.block, HeightOf(tree.root)));
              (ok <==> accepts && r.Some?) && if ok then Some(store.Db()) == r else store.Db() == old(store.Db())
    {
      InTreeFacts(tree.Abs(), tree.head);
      var newest := tree.BackHashes(Height(b) - HeightOf(tree.root));
      ok := store.CommitReorg(Height(b), b, b, Reverse(newest), accepts);
    }

    /** The block write of `persist_one`. */
    method SaveHead(j: PersistJob, capacity: nat, accepts: bool, ghost queue: seq<PersistJob>) returns (ok: bool)
      requires Valid(tree.Abs()) && store.tip == store.cursor && queue != [] && queue[0] == j
      requires j.reorg ==> tree.head == j.chunk
      modifies tree, store
      ensures store.tip == store.cursor && Valid(tree.Abs())
      ensures var e := old(Abs(queue, Waiting, None));
              && (ok <==> accepts && SaveBlock(e).Some?)
              && (ok ==> SaveBlock(e) == Some(store.Db()))
              && (!ok ==> Abs(queue, Waiting, None) == e)
              && (ok && j.reorg ==> Evicted(e.f, tree.Abs(), capacity))
              && (ok && !j.reorg ==> tree.Abs() == e.f)
    {
      var b := j.chunk.block;
      if j.reorg {
        ok := SaveReorg(b, accepts);
        if ok {
          tree.EnforceSideCapacity(capacity);
        }
      } else {
        ok := store.PutBlockAvailable(Height(b), b, b, accepts);
      }
    }

    /** `persist_one`: the writes of one attached head. It succeeds exactly when the block
        store and the tree accept and the disk takes the writes; a refused block write changes
        nothing, a refused root move leaves the block saved and the state unavailable. */
    method PersistOne(j: PersistJob, replay: bool, capacity: nat, acceptsBlock: bool, acceptsRoot: bool,
                      unreadable: set<nat>, stops: set<nat>, ghost queue: seq<PersistJob>, ghost mode: Option<Block>)
      returns (ok: bool)
      requires Valid(tree.Abs()) && store.tip == store.cursor && queue != [] && queue[0] == j
      requires (replay <==> mode.Some?) && (j.reorg ==> tree.head == j.chunk)
      requires j.roll.Some? ==> ChainLinked(j.roll.value)
      requires forall b :: b in store.bodies ==> store.bodies[b] == b
      modifies this, tree, store, history
      ensures var e := old(Abs(queue, Waiting, mode));
              && (ok <==> Saves(e, acceptsBlock)
                          && (j.roll.Some? ==> old(ValidRoll(tree.Abs(), j.roll.value)) && acceptsRoot))
              && (ok ==> Persisted(e, capacity, Abs(queue[1..], Waiting, mode)))
              && (!Saves(e, acceptsBlock) ==> Abs(queue, Waiting, mode) == e)
              && (!ok && Saves(e, acceptsBlock) ==> SavedOnly(e, capacity, Abs(queue, Waiting, mode)))
    {
      ghost var e := Abs(queue, Waiting, mode);
      if !replay {
        ok := SaveHead(j, capacity, acceptsBlock, queue);
        if !ok {
          return;
        }
        if j.reorg {
          EvictedKeeps(e.f, tree.Abs(), capacity);
        }
      }
      assert SaveBlock(e) == Some(store.Db()) && store.Db().bodies.Keys <= e.store.bodies.Keys + {j.chunk.block};
      ghost var g := tree.Abs();
      ok := true;
      if j.roll.Some? {
        ok := RollRoot(j.roll.value, acceptsRoot, replay, unreadable, stops, queue[1..], mode);
      }
      if ok {
        assert PersistedVia(e, g, capacity, Abs(queue[1..], Waiting, mode));
      }
    }

    /** The checks of `insert_block`, in order; a parent is returned when all pass. */
    method CheckBlock(b: Block, fast: bool, ghost queue: seq<PersistJob>, ghost stage: Stage, ghost mode: Option<Block>)
      returns (refused: ApplyResult, parent: Option<Chunk>)
      requires Valid(tree.Abs())
      ensures var e := Abs(queue, stage, mode);
              if parent.Some? then Passes(e, b, fast) && parent == Find(e.f, b.prev)
              else RefusedFor(e, b, fast, refused)
    {
      refused, parent := Orphan, None;
      if !fast && !available {
        return Unavailable, None;
      }
      if Height(b) <= HeightOf(tree.root) || Height(b) > HeightOf(tree.head) + 1 {
        return OutOfRange, None;
      }
      var seen := tree.Find(b);
      if seen.Some? {
        return Duplicate, None;
      }
      if fast && (b.prev != tree.head.block || Height(b) != HeightOf(tree.head) + 1) {
        return NotExtension, None;
      }
      parent := tree.Find(b.prev);
      if parent.Some? && Height(parent.value.block) + 1 != Height(b) {
        return WrongHeight, None;
      }
    }

    /** The head arms: attach, then the cache. */
    method CommitHead(chunk: Chunk, window: nat, fast: bool, ghost queue: seq<PersistJob>, ghost stage: Stage,
                      ghost mode: Option<Block>)
      returns (r: ApplyResult)
      requires TreeOk(tree.Abs(), window) && Opened(chunk) && MayAttach(tree.Abs(), chunk.block.prev, chunk)
      requires InRange(tree.Abs(), HeightOf(chunk)) && (fast || chunk.key > tree.head.key)
      requires if fast then window >= 1 && chunk.block.prev == tree.head.block else tree.sched == tree.root
      modifies tree, history
      ensures Valid(tree.Abs())
      ensures r == Fatal || (r.AcceptedHead? && r.job.chunk == chunk)
      ensures r.AcceptedHead? <==> chunk.key > old(tree.head.key)
      ensures r.AcceptedHead? ==>
                AttachStep(old(Abs(queue, stage, mode)), chunk, window, fast, Abs(queue + [r.job], stage, mode))
      ensures r.Fatal? ==> Abs(queue, stage, mode) == old(Abs(queue, stage, mode))
    {
      if chunk.key > tree.head.key {
        JoinsAsHead(tree.Abs(), chunk, window, fast);
      }
      var prevHead := tree.head.block;
      var inserted := tree.Attach(chunk.block.prev, chunk, window, fast);
      if inserted.None? {
        return Fatal;
      }
      history.Accept(chunk.block, inserted.value.reorg);
      r := AcceptedHead(PersistJob(chunk, inserted.value.reorg, inserted.value.roll, prevHead));
    }

    /** The side arm: the body must be on disk before the tree sees the chunk. */
    method CommitSide(chunk: Chunk, acceptsBody: bool, window: nat, capacity: nat,
                      ghost queue: seq<PersistJob>, ghost stage: Stage, ghost mode: Option<Block>)
      returns (r: ApplyResult)
      requires TreeOk(tree.Abs(), window) && Opened(chunk) && MayAttach(tree.Abs(), chunk.block.prev, chunk)
      requires store.tip == store.cursor && chunk.key <= tree.head.key
      modifies tree, store
      ensures Valid(tree.Abs()) && store.tip == store.cursor
      ensures r == Discarded || r == AcceptedSide
      ensures r.AcceptedSide? <==> acceptsBody
      ensures r.AcceptedSide? ==>
                exists joined :: SideVia(old(Abs(queue, stage, mode)), chunk, window, capacity, joined,
                                         Abs(queue, stage, mode))
      ensures r.Discarded? ==> Abs(queue, stage, mode) == old(Abs(queue, stage, mode))
    {
      ghost var e := Abs(queue, stage, mode);
      var b := chunk.block;
      var stored := store.PutBlock(Height(b), b, b, acceptsBody);
      if !stored {
        return Discarded;
      }
      var inserted := tree.Attach(b.prev, chunk, window, false);
      ghost var joined := tree.Abs();
      tree.EnforceSideCapacity(capacity);
      assert SideVia(e, chunk, window, capacity, joined, Abs(queue, stage, mode));
      r := AcceptedSide;
    }

    /** `insert_block` and the cache update of `prepare_one`. `key`, `verified` and `executed`
        are what consensus and execution answer, `uid` the address of the new chunk. With a
        window and serialized callers the answer depends only on the checks: an attach that
        passed them is never refused by the tree. */
    method PrepareOne(b: Block, key: real, uid: nat, fast: bool, verified: bool, executed: bool, acceptsBody: bool,
                      window: nat, capacity: nat,
                      ghost queue: seq<PersistJob>, ghost stage: Stage, ghost mode: Option<Block>)
      returns (r: ApplyResult)
      requires TreeOk(tree.Abs(), window) && store.tip == store.cursor
      requires if fast then window >= 1 else tree.sched == tree.root
      requires forall c :: c in tree.frozen || c in tree.disk ==> c.uid != uid
      modifies tree, store, history
      ensures store.tip == store.cursor && Valid(tree.Abs())
      ensures var e := old(Abs(queue, stage, mode));
              && (r.Duplicate? <==> Open(e, fast) && InRange(e.f, Height(b)) && Find(e.f, b).Some?)
              && (r.AcceptedHead? <==> Passes(e, b, fast) && verified && executed && key > e.f.head.key)
              && (r.AcceptedSide?
                  <==> Passes(e, b, fast) && !fast && verified && executed && key <= e.f.head.key && acceptsBody)
      ensures r.AcceptedHead? ==>
                && r.job.chunk.Node? && r.job.chunk == Node(uid, b, key, r.job.chunk.parent)
                && AttachStep(old(Abs(queue, stage, mode)), r.job.chunk, window, fast,
                              Abs(queue + [r.job], stage, mode))
      ensures r.AcceptedSide? ==>
              SideInserted(old(Abs(queue, stage, mode)), b, key, uid, window, capacity, Abs(queue, stage, mode))
      ensures !r.AcceptedHead? && !r.AcceptedSide? ==>
                && Abs(queue, stage, mode) == old(Abs(queue, stage, mode))
                && TurnedAway(old(Abs(queue, stage, mode)), b, key, fast, verified, executed, r)
    {
      ghost var e := Abs(queue, stage, mode);
      var refused, found := CheckBlock(b, fast, queue, stage, mode);
      if found.None? {
        RefusedMeans(e, b, fast, refused);
        return refused;
      }
      if !verified {
        return Invalid;
      }
      var planHead := tree.head.key < key;
      var chunk := Node(uid, b, key, found.value);
      if !executed {
        return if !fast && !planHead then Discarded else Invalid;
      }
      MayJoin(e.f, chunk);
      if fast || planHead {
        r := CommitHead(chunk, window, fast, queue, stage, mode);
      } else {
        r := CommitSide(chunk, acceptsBody, window, capacity, queue, stage, mode);
        if r.AcceptedSide? {
          SideInsertedBy(e, chunk, window, capacity, Abs(queue, stage, mode));
        }
      }
    }
  }

  // ------------------------------------------------------------ what inserting means

  predicate Open(e: Eng, fast: bool) { fast || e.available }

  /** The checks a block must pass before execution. */
  predicate Passes(e: Eng, b: Block, fast: bool) {
    && Open(e, fast) && InRange(e.f, Height(b)) && Find(e.f, b).None? && b.Child?
    && Find(e.f, b.prev).Some? && Height(b) == Height(b.prev) + 1
    && (fast ==> b.prev == e.f.head.block)
  }

  /** The first check that fails names the refusal. */
  predicate RefusedFor(e: Eng, b: Block, fast: bool, r: ApplyResult) {
    if !fast && !e.available then r == Unavailable
    else if Height(b) <= HeightOf(e.f.root) || Height(b) > HeightOf(e.f.head) + 1 then r == OutOfRange
    else if Find(e.f, b).Some? then r == Duplicate
    else if b.Genesis? then false
    else if fast && (b.prev != e.f.head.block || Height(b) != HeightOf(e.f.head) + 1) then r == NotExtension
    else if Find(e.f, b.prev).None? then r == Orphan
    else r == WrongHeight && Height(b) != Height(b.prev) + 1
  }

  /** Why a block was not accepted: the check it failed; invalid if consensus or, for a head
      candidate, execution said so; a side block that did not execute or could not be stored is
      discarded; one that does not extend the head in fast sync is fatal. */
  predicate TurnedAway(e: Eng, b: Block, key: real, fast: bool, verified: bool, executed: bool, r: ApplyResult) {
    if !Passes(e, b, fast) then RefusedFor(e, b, fast, r)
    else if !verified then r == Invalid
    else if !executed then r == if fast || key > e.f.head.key then Invalid else Discarded
    else r == if fast then Fatal else Discarded
  }

  /** Exactly the blocks that fail a check are refused, duplicates as duplicates. */
  lemma RefusedMeans(e: Eng, b: Block, fast: bool, r: ApplyResult)
    requires RefusedFor(e, b, fast, r)
    ensures !Passes(e, b, fast) && !r.AcceptedHead? && !r.AcceptedSide?
    ensures r.Duplicate? <==> Open(e, fast) && InRange(e.f, Height(b)) && Find(e.f, b).Some?
  {
  }

  /** A side insert: body on disk, then attached, then the side branches trimmed. */
  ghost predicate SideInserted(e: Eng, b: Block, key: real, uid: nat, window: nat, capacity: nat, e': Eng) {
    exists parent, joined :: SideVia(e, Node(uid, b, key, parent), window, capacity, joined, e')
  }

  ghost predicate SideVia(e: Eng, chunk: Chunk, window: nat, capacity: nat, joined: Forest, e': Eng) {
    && Valid(e.f) && Opened(chunk) && AfterPut(e.store, HeightOf(chunk), chunk.block, chunk.block).Some?
    && (var a := Attach(e.f, chunk.block.prev, chunk, window, false); a.Attached? && joined == a.forest)
    && Evicted(joined, e'.f, capacity)
    && e' == e.(store := AfterPut(e.store, HeightOf(chunk), chunk.block, chunk.block).value, f := e'.f)
  }

  lemma SideInsertedBy(e: Eng, chunk: Chunk, window: nat, capacity: nat, e': Eng)
    requires chunk.Node? && exists joined :: SideVia(e, chunk, window, capacity, joined, e')
    ensures SideInserted(e, chunk.block, chunk.key, chunk.uid, window, capacity, e')
  {
    var joined :| SideVia(e, chunk, window, capacity, joined, e');
    assert SideVia(e, Node(chunk.uid, chunk.block, chunk.key, chunk.parent), window, capacity, joined, e');
  }

  /** The chunk opened on the found parent may attach. */
  lemma MayJoin(f: Forest, chunk: Chunk)
    requires Valid(f) && Opened(chunk) && Find(f, chunk.block.prev) == Some(chunk.parent) && Find(f, chunk.block).None?
    requires HeightOf(chunk) == HeightOf(chunk.parent) + 1
    requires forall c :: c in f.frozen || c in f.disk ==> c.uid != chunk.uid
    ensures MayAttach(f, chunk.block.prev, chunk)
  {
  }

  lemma JoinsAsHead(f: Forest, chunk: Chunk, window: nat, fast: bool)
    requires TreeOk(f, window) && Opened(chunk) && MayAttach(f, chunk.block.prev, chunk) && chunk.key > f.head.key
    requires if fast then window >= 1 && chunk.parent.block == f.head.block else f.sched == f.root
    ensures var a := Attach(f, chunk.block.prev, chunk, window, fast); a.Attached? && a.inserted.isHead
  {
    if fast {
      FindComplete(f, f.head);
    }
    PlanNeverFails(f, chunk, window, fast);
  }

  /** A strict side insert is three engine steps: body, attach, trim. */
  lemma SideInsertIsTrace(e: Eng, b: Block, key: real, uid: nat, window: nat, capacity: nat, e': Eng, genesis: Block)
      returns (chunk: Chunk)
    requires SideInserted(e, b, key, uid, window, capacity, e') && Passes(e, b, false) && key <= e.f.head.key
    requires e.replay.None? && e.queue == []
    ensures Trace(e, [SideBody(b, key)] + ([SideAttach(chunk)] + ([Evict(capacity)] + [])), e', genesis, window)
  {
    var parent, joined :| SideVia(e, Node(uid, b, key, parent), window, capacity, joined, e');
    chunk := Node(uid, b, key, parent);
    var m := e.(store := AfterPut(e.store, Height(b), b, b).value);
    var n := m.(f := joined);
    TraceNone(e', genesis, window);
    TraceStep(n, Evict(capacity), e', [], e', genesis, window);
    TraceStep(m, SideAttach(chunk), n, [Evict(capacity)] + [], e', genesis, window);
    TraceStep(e, SideBody(b, key), m, [SideAttach(chunk)] + ([Evict(capacity)] + []), e', genesis, window);
  }

  /** In a reachable state persisting the first job is refused by neither store nor tree. */
  lemma PersistNeverRefused(e: Eng, genesis: Block, window: nat)
    requires Inv(e, genesis, window) && e.queue != [] && e.stage.Waiting?
    ensures SaveBlock(e).Some?
    ensures e.queue[0].roll.Some? ==> ValidRoll(e.f, e.queue[0].roll.value)
  {
    if e.replay.None? {
      SaveAccepted(e, genesis, window);
    }
    if e.queue[0].roll.Some? {
      FrontRollValid(e.f, e.queue);
    }
  }
}
