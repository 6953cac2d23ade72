/** Looking up blocks by height: the store behind a cache of blocks not yet stable, and the
    same overlaid with a candidate branch. */
module History {
  import opened Blocks
  import opened ForkTree
  import opened BlockStore
  import opened SideEviction
  import opened Engine
  import opened EngineInv
  import opened EngineRuns
  import opened TreeOps

  /** `Failed` is a missing or mismatched body under an index entry. */
  datatype HistoryResult = Missing | Failed | At(block: Block)

  /** A stored block, checked against the height and hash it was indexed under. */
  function StoredAt(store: BlockDb, h: nat): HistoryResult {
    match ReadByHeight(store, h)
    case NotFound => Missing
    case MissingBody => Failed
    case Found(hash, data) => if Height(data) != h || data != hash then Failed else At(data)
  }

  function BlockAt(pending: map<nat, Block>, store: BlockDb, genesis: Block, h: nat): HistoryResult {
    if h == 0 then At(genesis) else if h in pending then At(pending[h]) else StoredAt(store, h)
  }

  /** Whatever the store holds, a lookup never passes off another block: it answers with the block
      indexed at that height, stored under its own hash, and reports an error for anything else
      found there. */
  lemma LookupNeverLies(store: BlockDb, h: nat, b: Block)
    ensures StoredAt(store, h) == Missing <==> h !in store.index
    ensures StoredAt(store, h) == At(b)
       <==> h in store.index && store.index[h] == b && Stored(store, b) && Height(b) == h
  {
  }

  /** The branch above the durable root comes first, then the canonical history. */
  function BranchAt(branch: map<nat, Block>, pending: map<nat, Block>, store: BlockDb, genesis: Block,
                    h: nat): HistoryResult {
    if h in branch then At(branch[h]) else BlockAt(pending, store, genesis, h)
  }

  /** Blocks by height, the last one winning. */
  function ByHeight(blocks: seq<Block>): map<nat, Block> {
    if blocks == [] then map[]
    else ByHeight(blocks[..|blocks| - 1])[Height(blocks[|blocks| - 1]) := blocks[|blocks| - 1]]
  }

  /** The blocks from the durable root to a live chunk, by height. */
  ghost predicate BranchOf(f: Forest, parent: Chunk, branch: map<nat, Block>) {
    && InTree(f, parent) && Linked(parent.block)
    && (forall h :: h in branch <==> HeightOf(f.root) <= h <= HeightOf(parent))
    && (forall h :: HeightOf(f.root) <= h <= HeightOf(parent) ==> branch[h] == AncestorAt(parent.block, h))
  }

  lemma {:induction false} ByHeightHas(blocks: seq<Block>, b: Block, lo: nat, n: nat, h: nat)
    requires LinesUp(blocks, b, lo) && n <= |blocks|
    ensures h in ByHeight(blocks[..n]) <==> lo <= h < lo + n
    ensures lo <= h < lo + n ==> ByHeight(blocks[..n])[h] == AncestorAt(b, h)
  {
    if n > 0 {
      assert blocks[..n][..n - 1] == blocks[..n - 1];
      ByHeightHas(blocks, b, lo, n - 1, h);
    }
  }

  /** What `branch_blocks` hands over is the parent's branch. */
  lemma BranchBlocksAreBranch(f: Forest, parent: Chunk, blocks: seq<Block>)
    requires InTree(f, parent) && LinesUp(blocks, parent.block, HeightOf(f.root))
    ensures BranchOf(f, parent, ByHeight(blocks))
  {
    assert blocks[..|blocks|] == blocks;
    forall h: nat
      ensures h in ByHeight(blocks) <==> HeightOf(f.root) <= h <= HeightOf(parent)
      ensures HeightOf(f.root) <= h <= HeightOf(parent) ==> ByHeight(blocks)[h] == AncestorAt(parent.block, h)
    {
      ByHeightHas(blocks, parent.block, HeightOf(f.root), |blocks|, h);
    }
  }

  // ------------------------------------------------------------ the cache as it runs

  class StoreHistory {
    const genesis: Block
    var pending: map<nat, Block>

    constructor (genesis: Block)
      ensures this.genesis == genesis && pending == map[]
    {
      this.genesis, pending := genesis, map[];
    }

    method Remember(b: Block)
      modifies this
      ensures pending == old(pending)[Height(b) := b]
    {
      pending := pending[Height(b) := b];
    }

    /** Forgetting names the hash, so a block that replaced it stays. */
    method Forget(height: nat, hash: Block)
      modifies this
      ensures forall h :: h in pending <==> h in old(pending) && !(h == height && old(pending)[h] == hash)
      ensures forall h :: h in pending ==> pending[h] == old(pending)[h]
    {
      if height in pending && pending[height] == hash {
        pending := pending - {height};
      }
    }

    method ClearPending()
      modifies this
      ensures pending == map[]
    {
      pending := map[];
    }

    method BlockAtHeight(store: BlockDb, h: nat) returns (r: HistoryResult)
      ensures r == BlockAt(pending, store, genesis, h)
    {
      if h == 0 {
        return At(genesis);
      }
      if h in pending {
        return At(pending[h]);
      }
      if h !in store.index {
        return Missing;
      }
      var hash := store.index[h];
      if hash !in store.bodies {
        return Failed;
      }
      var data := store.bodies[hash];
      if Height(data) != h || data != hash {
        return Failed;
      }
      r := At(data);
    }

    /** The overlay map of a branch history. */
    method ForBranch(blocks: seq<Block>) returns (branch: map<nat, Block>)
      ensures branch == ByHeight(blocks)
    {
      branch := map[];
      for i := 0 to |blocks|
        invariant branch == ByHeight(blocks[..i])
      {
        assert blocks[..i + 1][..i] == blocks[..i];
        branch := branch[Height(blocks[i]) := blocks[i]];
      }
      assert blocks[..|blocks|] == blocks;
    }

    /** The cache side of an accepted head: a reorg empties the cache first. */
    method Accept(b: Block, reorg: bool)
      modifies this
      ensures pending == Engine.Remember(old(pending), reorg, b)
    {
      if reorg {
        ClearPending();
      }
      Remember(b);
    }

    /** One round of `notify_stable`: the block is remembered for its callbacks and then
        forgotten; an unreadable body or a failing callback ends the loop. */
    method Announce(c: Chunk, store: BlockDb, replay: bool, unreadable: set<nat>, stops: set<nat>) returns (go: bool)
      requires c.block in store.bodies ==> store.bodies[c.block] == c.block
      modifies this
      ensures Touches(old(pending), c, pending) && (go ==> !Caches(pending, c))
      ensures replay || NothingFails(c, store, unreadable, stops) ==> go
    {
      var hash := c.block;
      var height := Height(hash);
      if !replay {
        if !(height in pending && pending[height] == hash) && (height in unreadable || hash !in store.bodies) {
          return false;
        }
        Remember(hash);
        if height in stops {
          return false;
        }
      }
      Forget(height, hash);
      go := true;
    }

    /** `notify_stable`: if no round ends it early, no stable block stays cached. */
    method NotifyStable(store: BlockDb, chain: seq<Chunk>, replay: bool, unreadable: set<nat>, stops: set<nat>)
      returns (done: bool)
      requires forall b :: b in store.bodies ==> store.bodies[b] == b
      modifies this
      ensures Forgets(old(pending), chain, pending)
      ensures done ==> AllForgotten(chain, pending)
      ensures replay || (forall c :: c in chain ==> NothingFails(c, store, unreadable, stops)) ==> done
    {
      for i := 0 to |chain|
        invariant Forgets(old(pending), chain, pending) && AllForgotten(chain[..i], pending)
      {
        ghost var p := pending;
        done := Announce(chain[i], store, replay, unreadable, stops);
        ForgetsOne(old(pending), chain, p, i, pending);
        if !done {
          assert chain[i] in chain;
          return;
        }
        AllForgottenNext(chain, i, p, pending);
      }
      assert chain[..|chain|] == chain;
      done := true;
    }
  }

  predicate Caches(p: map<nat, Block>, c: Chunk) {
    HeightOf(c) in p && p[HeightOf(c)] == c.block
  }

  /** `p'` is `p` up to the height of `c`, where an entry stays, goes, or is the block of `c`. */
  ghost predicate Touches(p: map<nat, Block>, c: Chunk, p': map<nat, Block>) {
    && (forall h :: h != HeightOf(c) ==> (h in p <==> h in p') && (h in p ==> p[h] == p'[h]))
    && (HeightOf(c) in p' ==> Caches(p', c) || (HeightOf(c) in p && p[HeightOf(c)] == p'[HeightOf(c)]))
  }

  lemma ForgetsOne(p: map<nat, Block>, chain: seq<Chunk>, q: map<nat, Block>, i: nat, q': map<nat, Block>)
    requires Forgets(p, chain, q) && i < |chain| && Touches(q, chain[i], q')
    ensures Forgets(p, chain, q')
  {
    forall h | h in p || h in q'
      ensures (h in p && h in q' && p[h] == q'[h])
           || exists k :: 0 <= k < |chain| && HeightOf(chain[k]) == h && (h in q' ==> q'[h] == chain[k].block)
    {
      if h == HeightOf(chain[i]) && !(h in q' && h in q && q[h] == q'[h]) {
        assert h in q' ==> q'[h] == chain[i].block;
      }
    }
  }

  lemma AllForgottenNext(chain: seq<Chunk>, i: nat, p: map<nat, Block>, p': map<nat, Block>)
    requires i < |chain| && AllForgotten(chain[..i], p) && Touches(p, chain[i], p') && !Caches(p', chain[i])
    ensures AllForgotten(chain[..i + 1], p')
  {
    forall k | 0 <= k < i + 1 ensures !Caches(p', chain[k]) {
      if k < i { assert !Caches(p, chain[..i][k]); }
    }
  }

  /** The body of a stable block can be read and none of its callbacks fails. */
  predicate NothingFails(c: Chunk, store: BlockDb, unreadable: set<nat>, stops: set<nat>) {
    HeightOf(c) !in unreadable && c.block in store.bodies && HeightOf(c) !in stops
  }

  // ------------------------------------------------------------ what the cache holds in every run

  predicate CanonicalAt(head: Block, h: nat, b: Block) {
    Linked(head) && 1 <= h <= Height(head) && b == AncestorAt(head, h)
  }

  /** Everything cached is on the canonical branch. */
  ghost predicate CacheCanonical(pending: map<nat, Block>, head: Block) {
    forall h :: h in pending ==> CanonicalAt(head, h, pending[h])
  }

  /** A strict insert that reorgs has attached its block but not yet stored the new branch. */
  predicate ReorgUnderWay(e: Eng) {
    e.replay.None? && e.queue != [] && e.stage.Waiting? && e.queue[0].reorg
  }

  /** The cache bridges the heights the store does not have yet. */
  ghost predicate Bridges(pending: map<nat, Block>, cursor: nat, height: nat) {
    forall h :: cursor < h <= height ==> h in pending
  }

  /** The blocks about to be announced as stable are canonical and stored. */
  ghost predicate StableOk(e: Eng) {
    e.stage.Committed? && e.queue != [] && e.queue[0].roll.Some? ==>
      forall i :: 0 <= i < |e.queue[0].roll.value.chain| ==>
        var c := e.queue[0].roll.value.chain[i];
        CanonicalAt(e.f.head.block, HeightOf(c), c.block) && HeightOf(c) <= e.store.cursor
  }

  ghost predicate HistOk(e: Eng) {
    && CacheCanonical(e.pending, e.f.head.block)
    && (ReorgUnderWay(e) || Bridges(e.pending, e.store.cursor, HeightOf(e.f.head)))
    && StableOk(e)
  }

  lemma CanonicalExtends(head: Block, b: Block, h: nat, x: Block)
    requires CanonicalAt(head, h, x) && b.Child? && b.prev == head && Linked(b)
    ensures CanonicalAt(b, h, x)
  {
  }

  lemma CacheExtends(pending: map<nat, Block>, head: Block, b: Block)
    requires CacheCanonical(pending, head) && b.Child? && b.prev == head && Linked(b)
    ensures CacheCanonical(pending[Height(b) := b], b)
  {
    var p := pending[Height(b) := b];
    forall h | h in p ensures CanonicalAt(b, h, p[h]) {
      if h != Height(b) {
        CanonicalExtends(head, b, h, pending[h]);
      }
    }
  }

  /** The cursor in terms of the tree. */
  lemma CursorBelow(e: Eng, genesis: Block, window: nat)
    requires Inv(e, genesis, window) && !ReorgUnderWay(e) && e.replay.None?
    ensures Linked(e.f.head.block) && AncEq(PersistedHead(e), e.f.head.block) && e.store.cursor <= HeightOf(e.f.head)
  {
    InTreeFacts(e.f, e.f.head);
    if e.queue != [] {
      var c := e.queue[0].chunk;
      QueuedLive(e, genesis, window, 0);
      AboveFacts(c, e.f.head);
      if e.stage.Waiting? {
        AboveFacts(c.parent, c);
        AncEqTransitive(c.parent.block, c.block, e.f.head.block);
      }
    }
    AncEqHeight(PersistedHead(e), e.f.head.block);
  }

  /** What a new head means for the cache. */
  ghost predicate NewHead(e: Eng, b: Block, reorg: bool, e': Eng) {
    && e'.f.head.block == b && b.Child? && Linked(b) && (!reorg ==> b.prev == e.f.head.block)
    && e'.pending == Remember(e.pending, reorg, b) && e'.store == e.store
  }

  lemma CacheNewHead(e: Eng, b: Block, reorg: bool, e': Eng)
    requires CacheCanonical(e.pending, e.f.head.block) && NewHead(e, b, reorg, e')
    ensures CacheCanonical(e'.pending, b)
    ensures !reorg && Bridges(e.pending, e.store.cursor, HeightOf(e.f.head)) ==>
            Bridges(e'.pending, e'.store.cursor, Height(b))
  {
    if reorg {
      assert CanonicalAt(b, Height(b), b);
    } else {
      CacheExtends(e.pending, e.f.head.block, b);
    }
  }

  lemma HistHead(e: Eng, chunk: Chunk, e': Eng, genesis: Block, window: nat)
    requires Inv(e, genesis, window) && HistOk(e) && Step(e, HeadAttach(chunk), e', genesis, window)
    ensures HistOk(e')
  {
    AttachTree(e.f, chunk, window, false);
    SchedBelow(e.f, chunk, window, false);
    var reorg := chunk.parent != e.f.head;
    assert NewHead(e, chunk.block, reorg, e');
    CacheNewHead(e, chunk.block, reorg, e');
    assert reorg ==> ReorgUnderWay(e');
  }

  lemma LinearNewHead(e: Eng, chunk: Chunk, e': Eng, genesis: Block, window: nat)
    requires Inv(e, genesis, window) && Step(e, LinearAttach(chunk), e', genesis, window)
    ensures NewHead(e, chunk.block, false, e') && ReorgUnderWay(e') == ReorgUnderWay(e) == false
  {
    AttachTree(e.f, chunk, window, true);
    SchedBelow(e.f, chunk, window, true);
  }

  lemma HistLinear(e: Eng, chunk: Chunk, e': Eng, genesis: Block, window: nat)
    requires Inv(e, genesis, window) && HistOk(e) && Step(e, LinearAttach(chunk), e', genesis, window)
    ensures HistOk(e')
  {
    LinearNewHead(e, chunk, e', genesis, window);
    CacheNewHead(e, chunk.block, false, e');
    var j := LinearExtends(e, chunk, e', genesis, window);
    StableExtends(e, j, e');
  }

  lemma StableExtends(e: Eng, j: PersistJob, e': Eng)
    requires StableOk(e) && Extends(e, j, e') && StageOk(e) && Linked(j.chunk.block)
    requires j.chunk.block.Child? && j.chunk.block.prev == e.f.head.block
    ensures StableOk(e')
  {
    if e.stage.Committed? && e.queue != [] && e.queue[0].roll.Some? {
      var chain := e.queue[0].roll.value.chain;
      forall i | 0 <= i < |chain| ensures CanonicalAt(j.chunk.block, HeightOf(chain[i]), chain[i].block) {
        CanonicalExtends(e.f.head.block, j.chunk.block, HeightOf(chain[i]), chain[i].block);
      }
    }
  }

  lemma HistStore(e: Eng, e': Eng, genesis: Block, window: nat)
    requires Inv(e, genesis, window) && HistOk(e) && Step(e, StoreWrite, e', genesis, window)
    ensures HistOk(e')
  {
    if e.replay.None? {
      SaveAccepted(e, genesis, window);
      if !e.queue[0].reorg {
        AppendReady(e, genesis, window);
      }
    }
  }

  lemma HistCommit(e: Eng, e': Eng, genesis: Block, window: nat)
    requires Inv(e, genesis, window) && HistOk(e) && Step(e, CommitMove, e', genesis, window)
    ensures HistOk(e')
  {
    var job := e.queue[0].roll.value;
    FrontRollValid(e.f, e.queue);
    QueuedLive(e, genesis, window, 0);
    InTreeFacts(e.f, e.f.head);
    InTreeFacts(e.f, e.queue[0].chunk);
    AboveFacts(job.newRoot, e.queue[0].chunk);
    CursorReaches(e, genesis, window);
    forall i | 0 <= i < |job.chain|
      ensures CanonicalAt(e.f.head.block, HeightOf(job.chain[i]), job.chain[i].block)
              && HeightOf(job.chain[i]) <= e.store.cursor
    {
      PathFacts(e.f.root, job.newRoot, i);
      AboveTransitive(job.chain[i], job.newRoot, e.f.head);
      OnHead(e.f, job.chain[i]);
      AboveFacts(job.chain[i], job.newRoot);
    }
  }

  lemma OnHead(f: Forest, c: Chunk)
    requires Valid(f) && Above(c, f.head) && HeightOf(c) >= 1
    ensures CanonicalAt(f.head.block, HeightOf(c), c.block)
  {
    InTreeFacts(f, f.head);
    AboveFacts(c, f.head);
    AncEqHeight(c.block, f.head.block);
  }

  lemma CursorReaches(e: Eng, genesis: Block, window: nat)
    requires Inv(e, genesis, window) && !e.stage.Waiting?
    ensures HeightOf(e.queue[0].chunk) <= e.store.cursor
  {
    QueuedLive(e, genesis, window, 0);
    InTreeFacts(e.f, e.f.head);
    AboveFacts(e.queue[0].chunk, e.f.head);
    AncEqHeight(PersistedHead(e), PersistedHead(e));
    if e.replay.Some? {
      AncEqHeight(e.f.head.block, e.replay.value);
    }
  }

  lemma HistEnd(e: Eng, e': Eng, genesis: Block, window: nat)
    requires Inv(e, genesis, window) && HistOk(e) && Step(e, EndMove, e', genesis, window)
    ensures HistOk(e')
  {
    var chain := e.queue[0].roll.value.chain;
    PopTip(e.queue, e.f.head);
    forall h | h in e'.pending ensures CanonicalAt(e.f.head.block, h, e'.pending[h]) {
      if !(h in e.pending && e.pending[h] == e'.pending[h]) {
        var i :| 0 <= i < |chain| && HeightOf(chain[i]) == h && (h in e'.pending ==> e'.pending[h] == chain[i].block);
      }
    }
    forall h | e.store.cursor < h <= HeightOf(e.f.head) ensures h in e'.pending {
      assert h in e.pending;
    }
  }

  lemma HistEvict(e: Eng, capacity: nat, e': Eng, genesis: Block, window: nat)
    requires Inv(e, genesis, window) && HistOk(e) && Step(e, Evict(capacity), e', genesis, window)
    ensures HistOk(e')
  {
    EvictedKeeps(e.f, e'.f, capacity);
  }

  lemma HistCrash(e: Eng, uid: nat, key: real, e': Eng, genesis: Block, window: nat)
    requires Inv(e, genesis, window) && Step(e, CrashAndBoot(uid, key), e', genesis, window)
    ensures HistOk(e')
  {
    CrashSafe(e, genesis, window);
  }

  lemma HistDone(e: Eng, e': Eng, genesis: Block, window: nat)
    requires Inv(e, genesis, window) && HistOk(e) && Step(e, JobDone, e', genesis, window)
    ensures HistOk(e')
  {
    PopTip(e.queue, e.f.head);
  }

  /** Every step keeps the cache right. */
  lemma HistStep(e: Eng, s: EngineStep, e': Eng, genesis: Block, window: nat)
    requires Inv(e, genesis, window) && HistOk(e) && Step(e, s, e', genesis, window)
    ensures HistOk(e')
  {
    match s
    case HeadAttach(c) => HistHead(e, c, e', genesis, window);
    case LinearAttach(c) => HistLinear(e, c, e', genesis, window);
    case StoreWrite => HistStore(e, e', genesis, window);
    case JobDone => HistDone(e, e', genesis, window);
    case CommitMove => HistCommit(e, e', genesis, window);
    case EndMove => HistEnd(e, e', genesis, window);
    case Evict(capacity) => HistEvict(e, capacity, e', genesis, window);
    case CrashAndBoot(uid, key) => HistCrash(e, uid, key, e', genesis, window);
    case _ =>
  }

  // ------------------------------------------------------------ lookups

  lemma StoredIs(e: Eng, genesis: Block, window: nat, h: nat)
    requires Inv(e, genesis, window) && h >= 1
    ensures Linked(PersistedHead(e))
    ensures var tip := PersistedHead(e);
            StoredAt(e.store, h) == if h <= Height(tip) then At(AncestorAt(tip, h)) else Missing
  {
    assert IndexedAt(e.store, PersistedHead(e), h);
  }

  /** Outside an unfinished reorg the lookup is the canonical block at every height up to the
      head, however far storage lags. Above the head it finds nothing exactly when the height
      is above the cursor, so only a boot replay, whose store is ahead of its tree, sees more. */
  lemma LookupIsCanonical(e: Eng, genesis: Block, window: nat, h: nat)
    requires Inv(e, genesis, window) && HistOk(e) && !ReorgUnderWay(e)
    ensures Linked(e.f.head.block)
    ensures h <= HeightOf(e.f.head) ==> BlockAt(e.pending, e.store, genesis, h) == At(AncestorAt(e.f.head.block, h))
    ensures h > HeightOf(e.f.head) ==> (BlockAt(e.pending, e.store, genesis, h) == Missing <==> h > e.store.cursor)
    ensures h > HeightOf(e.f.head) && e.replay.None? ==> BlockAt(e.pending, e.store, genesis, h) == Missing
  {
    InTreeFacts(e.f, e.f.head);
    var p, b := PersistedHead(e), e.f.head.block;
    if h == 0 {
      TipFromGenesis(e, genesis, window);
      AncEqHeight(genesis, b);
    } else {
      StoredIs(e, genesis, window, h);
      if e.replay.None? {
        CursorBelow(e, genesis, window);
        AncEqHeight(p, b);
        if h <= Height(p) { AncestorAtCompose(b, Height(p), h); }
      } else {
        AncEqHeight(b, p);
        if h <= Height(b) { AncestorAtCompose(p, Height(b), h); }
      }
    }
  }

  /** Whatever is cached is answered canonically in every state, an unfinished reorg included,
      when the store still holds the old branch. */
  lemma CachedIsCanonical(e: Eng, genesis: Block, h: nat)
    requires HistOk(e) && h in e.pending
    ensures CanonicalAt(e.f.head.block, h, e.pending[h])
    ensures BlockAt(e.pending, e.store, genesis, h) == At(AncestorAt(e.f.head.block, h))
  {
  }

  /** Below the durable root the canonical lookup is right in every state. */
  lemma BelowRoot(e: Eng, genesis: Block, window: nat, h: nat)
    requires Inv(e, genesis, window) && HistOk(e) && h <= HeightOf(e.f.root)
    ensures Linked(e.f.root.block) && BlockAt(e.pending, e.store, genesis, h) == At(AncestorAt(e.f.root.block, h))
  {
    var r, p, b := e.f.root.block, PersistedHead(e), e.f.head.block;
    ReachedBelowTip(e, genesis, window);
    InTreeFacts(e.f, e.f.head);
    AncEqHeight(r, p);
    AncEqHeight(r, b);
    if h == 0 {
      TipFromGenesis(e, genesis, window);
      AncEqHeight(genesis, r);
    } else {
      StoredIs(e, genesis, window, h);
      AncestorAtCompose(p, Height(r), h);
      AncestorAtCompose(b, Height(r), h);
    }
  }

  /** A branch history answers with the candidate parent's own ancestor at every height up to
      the parent, in every state; above the parent it is the canonical history, not a miss. */
  lemma BranchLookup(e: Eng, genesis: Block, window: nat, parent: Chunk, branch: map<nat, Block>, h: nat)
    requires Inv(e, genesis, window) && HistOk(e) && BranchOf(e.f, parent, branch)
    ensures h <= HeightOf(parent) ==>
            BranchAt(branch, e.pending, e.store, genesis, h) == At(AncestorAt(parent.block, h))
    ensures h > HeightOf(parent) ==>
              BranchAt(branch, e.pending, e.store, genesis, h) == BlockAt(e.pending, e.store, genesis, h)
  {
    if h < HeightOf(e.f.root) {
      BelowRoot(e, genesis, window, h);
      InTreeFacts(e.f, parent);
      AncEqHeight(e.f.root.block, parent.block);
      AncestorAtCompose(parent.block, HeightOf(e.f.root), h);
    }
  }

  // ------------------------------------------------------------ whole runs

  /** Sound states whose cache is right. */
  ghost function Remembering(genesis: Block, window: nat): iset<Eng> {
    iset e: Eng | Inv(e, genesis, window) && HistOk(e)
  }

  lemma FreshRemembers(genesis: Block, uid: nat, key: real, window: nat)
    requires genesis.Genesis?
    ensures Fresh(genesis, uid, key) in Remembering(genesis, window)
  {
    FreshInv(genesis, uid, key, window);
  }

  lemma RemembersAt(states: seq<Eng>, steps: seq<EngineStep>, genesis: Block, window: nat, i: nat)
    requires Run(states, steps, genesis, window) && i < |steps|
    ensures StaysAt(Remembering(genesis, window), states, i)
  {
    assert StepAt(states, steps, genesis, window, i);
    if states[i] in Remembering(genesis, window) {
      HistStep(states[i], steps[i], states[i + 1], genesis, window);
      StepKeepsInv(states[i], steps[i], states[i + 1], genesis, window);
    }
  }

  /** The cache is right in every state of every run. */
  lemma RunRemembers(states: seq<Eng>, steps: seq<EngineStep>, genesis: Block, window: nat, i: nat)
    requires Run(states, steps, genesis, window) && states[0] in Remembering(genesis, window) && i < |states|
    ensures states[i] in Remembering(genesis, window)
  {
    forall k | 0 <= k < |steps| ensures StaysAt(Remembering(genesis, window), states, k) {
      RemembersAt(states, steps, genesis, window, k);
    }
    StaysIn(Remembering(genesis, window), states, i);
  }

  // ------------------------------------------------------------ what the cache lets go

  /** The root move of the step ends with every stable block announced. */
  ghost predicate Clean(e: Eng, s: EngineStep, e': Eng) {
    s.EndMove? && e.queue != [] && e.queue[0].roll.Some? ==> AllForgotten(e.queue[0].roll.value.chain, e'.pending)
  }

  /** Cached heights lie above the durable root, or are about to be announced as stable. */
  ghost predicate CachedAbove(e: Eng) {
    forall h :: h in e.pending ==>
      h > HeightOf(e.f.root) || (e.stage.Committed? && e.queue != [] && e.queue[0].roll.Some?
                                 && AtHeight(e.queue[0].roll.value.chain, h))
  }

  predicate AtHeight(chain: seq<Chunk>, h: nat) {
    exists i :: 0 <= i < |chain| && HeightOf(chain[i]) == h
  }

  lemma AboveCommit(e: Eng, e': Eng, genesis: Block, window: nat)
    requires Inv(e, genesis, window) && Step(e, CommitMove, e', genesis, window) && CachedAbove(e)
    ensures CachedAbove(e')
  {
    var job := e.queue[0].roll.value;
    InTreeFacts(e.f, e.f.head);
    AboveFacts(job.newRoot, e.f.head);
    AboveFacts(e.f.root, job.newRoot);
    forall h | h in e.pending && h <= HeightOf(job.newRoot) ensures AtHeight(job.chain, h) {
      PathFacts(e.f.root, job.newRoot, h - HeightOf(e.f.root) - 1);
    }
  }

  /** At a stable height the cache can only hold the stable block. */
  lemma StableCached(e: Eng, p: map<nat, Block>, i: nat)
    requires HistOk(e) && e.stage.Committed? && e.queue != [] && e.queue[0].roll.Some?
    requires var chain := e.queue[0].roll.value.chain;
             Forgets(e.pending, chain, p) && i < |chain| && HeightOf(chain[i]) in p
    ensures Caches(p, e.queue[0].roll.value.chain[i])
  {
    var chain := e.queue[0].roll.value.chain;
    var h := HeightOf(chain[i]);
    assert CanonicalAt(e.f.head.block, h, chain[i].block);
    if h in e.pending && e.pending[h] == p[h] {
      assert CanonicalAt(e.f.head.block, h, e.pending[h]);
    } else {
      var k :| 0 <= k < |chain| && HeightOf(chain[k]) == h && p[h] == chain[k].block;
      assert CanonicalAt(e.f.head.block, h, chain[k].block);
    }
  }

  lemma AboveEnd(e: Eng, e': Eng, genesis: Block, window: nat)
    requires Inv(e, genesis, window) && HistOk(e) && Step(e, EndMove, e', genesis, window)
    requires CachedAbove(e) && Clean(e, EndMove, e')
    ensures CachedAbove(e')
  {
    var chain := e.queue[0].roll.value.chain;
    forall i | 0 <= i < |chain| ensures HeightOf(chain[i]) !in e'.pending {
      if HeightOf(chain[i]) in e'.pending {
        StableCached(e, e'.pending, i);
        assert false;
      }
    }
  }

  lemma AboveNewHead(e: Eng, b: Block, reorg: bool, e': Eng)
    requires CachedAbove(e) && Height(b) > HeightOf(e.f.root) && e'.pending == Remember(e.pending, reorg, b)
    requires e'.f.root == e.f.root && e'.stage == e.stage && (e.queue == [] || e.queue <= e'.queue)
    ensures CachedAbove(e')
  {
  }

  lemma AboveAttach(e: Eng, s: EngineStep, e': Eng, genesis: Block, window: nat, linear: bool)
    requires Inv(e, genesis, window) && Step(e, s, e', genesis, window) && CachedAbove(e)
    requires if linear then s.LinearAttach? else s.HeadAttach?
    ensures CachedAbove(e')
  {
    AttachShape(e.f, s.chunk, window, linear);
    AboveNewHead(e, s.chunk.block, s.chunk.parent != e.f.head, e');
  }

  lemma AboveStep(e: Eng, s: EngineStep, e': Eng, genesis: Block, window: nat)
    requires Inv(e, genesis, window) && HistOk(e) && Step(e, s, e', genesis, window)
    requires CachedAbove(e) && Clean(e, s, e')
    ensures CachedAbove(e')
  {
    match s
    case HeadAttach(c) => AboveAttach(e, s, e', genesis, window, false);
    case LinearAttach(c) => AboveAttach(e, s, e', genesis, window, true);
    case CommitMove => AboveCommit(e, e', genesis, window);
    case EndMove => AboveEnd(e, e', genesis, window);
    case Evict(capacity) => EvictedKeeps(e.f, e'.f, capacity);
    case _ =>
  }

  ghost function Bounded(genesis: Block, window: nat): iset<Eng> {
    iset e: Eng | Inv(e, genesis, window) && HistOk(e) && CachedAbove(e)
  }

  ghost predicate CleanAt(states: seq<Eng>, steps: seq<EngineStep>, i: nat) {
    i < |steps| && i + 1 < |states| && Clean(states[i], steps[i], states[i + 1])
  }

  lemma BoundedAt(states: seq<Eng>, steps: seq<EngineStep>, genesis: Block, window: nat, i: nat)
    requires Run(states, steps, genesis, window) && i < |steps| && CleanAt(states, steps, i)
    ensures StaysAt(Bounded(genesis, window), states, i)
  {
    assert StepAt(states, steps, genesis, window, i);
    if states[i] in Bounded(genesis, window) {
      HistStep(states[i], steps[i], states[i + 1], genesis, window);
      StepKeepsInv(states[i], steps[i], states[i + 1], genesis, window);
      AboveStep(states[i], steps[i], states[i + 1], genesis, window);
    }
  }

  /** In runs where no announcement fails the cache is bounded: outside a root move it holds
      only heights above the durable root. */
  lemma RunForgets(states: seq<Eng>, steps: seq<EngineStep>, genesis: Block, window: nat, uid: nat, key: real, i: nat)
    requires Run(states, steps, genesis, window) && genesis.Genesis? && states[0] == Fresh(genesis, uid, key)
    requires i < |states| && forall k :: 0 <= k < |steps| ==> CleanAt(states, steps, k)
    ensures !states[i].stage.Committed? ==> forall h :: h in states[i].pending ==> h > HeightOf(states[i].f.root)
  {
    FreshRemembers(genesis, uid, key, window);
    forall k | 0 <= k < |steps| ensures StaysAt(Bounded(genesis, window), states, k) {
      BoundedAt(states, steps, genesis, window, k);
    }
    StaysIn(Bounded(genesis, window), states, i);
  }
}
