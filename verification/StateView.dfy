/** Reading state through chunk layers, and flattening layers onto the disk. */
module StateView {
  import opened Options
  import opened Blocks
  import opened ForkTree

  /** `get_state`: the newest layer that mentions the key wins; a disk-backed chunk
      without it reads the state database. */
  function Lookup(disk: set<Chunk>, db: KV, c: Chunk, k: StateKey): Option<Cell> {
    if k in Layer(c) then Layer(c)[k]
    else if c.RootChunk? || c in disk then Get(db, k)
    else Lookup(disk, db, c.parent, k)
  }

  /** Every business value of `db` is the one in the state after `b`. */
  ghost predicate Holds(db: KV, b: Block) {
    forall n :: Get(db, Business(n)) == Value(b, Business(n))
  }

  /** The chunks on the walk of `c` that read the disk are at or above block `r`. */
  ghost predicate DiskAbove(disk: set<Chunk>, c: Chunk, r: Block) {
    forall d :: Above(d, c) && (d.RootChunk? || d in disk) ==> AncEq(d.block, r)
  }

  /** A view over a disk that has reached any ancestor `r` of the view's block, however
      far its own root lags behind `r`, reads exactly the state after its block. */
  lemma LookupIsState(disk: set<Chunk>, db: KV, c: Chunk, k: StateKey, r: Block)
    requires WellLinked(c) && Linked(c.block)
    requires AncEq(r, c.block) && DiskAbove(disk, c, r)
    requires Get(db, k) == Value(r, k)
    ensures Lookup(disk, db, c, k) == Value(c.block, k)
  {
    AncEqHeight(r, c.block);
    if c.RootChunk? || c in disk {
      AncEqHeight(c.block, r);
      assert r == c.block;
    } else if k !in Layer(c) {
      if r == c.block {
        forall d | Above(d, c.parent) && (d.RootChunk? || d in disk)
          ensures AncEq(d.block, c.parent.block)
        {
          AboveFacts(d, c.parent);
        }
        LookupIsState(disk, db, c.parent, k, c.parent.block);
      } else {
        LookupIsState(disk, db, c.parent, k, r);
      }
    }
  }

  // ------------------------------------------------------------ the root batch

  /** Overlay the layers of a chain, oldest first. */
  function Flatten(db: KV, chain: seq<Chunk>): KV {
    if chain == [] then db
    else Overlay(Flatten(db, chain[..|chain| - 1]), Layer(chain[|chain| - 1]))
  }

  /** The database after one root advance: the flattened layers, then the two markers. */
  function BatchResult(db: KV, job: RollJob): KV {
    Put(Put(Flatten(db, job.chain), RootHash, Some(HashCell(job.newRoot.block))),
        RootHeight, Some(HeightCell(HeightOf(job.newRoot))))
  }

  /** `RootBatch::for_each`: stream every frozen layer oldest first, each in whatever order
      its table yields, then the markers; `try_write` applies the stream. */
  method WriteRootBatch(db: KV, job: RollJob) returns (r: KV)
    ensures forall k :: Get(r, k) == Get(BatchResult(db, job), k)
    ensures Get(r, RootHash) == Some(HashCell(job.newRoot.block))
    ensures Get(r, RootHeight) == Some(HeightCell(HeightOf(job.newRoot)))
  {
    r := db;
    var i := 0;
    while i < |job.chain|
      invariant 0 <= i <= |job.chain|
      invariant forall k :: Get(r, k) == Get(Flatten(db, job.chain[..i]), k)
    {
      var layer := Layer(job.chain[i]);
      var left := layer.Keys;
      ghost var before := r;
      while left != {}
        invariant left <= layer.Keys
        invariant forall k :: Get(r, k) == if k in layer && k !in left then layer[k] else Get(before, k)
        decreases left
      {
        var k :| k in left;
        r := Put(r, k, layer[k]);
        left := left - {k};
      }
      assert job.chain[..i + 1][..i] == job.chain[..i];
      i := i + 1;
    }
    assert job.chain[..i] == job.chain;
    r := Put(r, RootHash, Some(HashCell(job.newRoot.block)));
    r := Put(r, RootHeight, Some(HeightCell(HeightOf(job.newRoot))));
  }

  /** Flattening the branch from `a` to `c` onto the state after `a` gives the state after `c`. */
  lemma {:induction false} FlattenIsState(db: KV, a: Chunk, c: Chunk)
    requires WellLinked(c) && Above(a, c) && Holds(db, a.block)
    ensures Holds(Flatten(db, Path(a, c)), c.block)
    decreases c
  {
    if a != c {
      FlattenIsState(db, a, c.parent);
      var p := Path(a, c);
      assert p[..|p| - 1] == Path(a, c.parent);
    }
  }

  lemma BatchHolds(f: Forest, db: KV, job: RollJob)
    requires Valid(f) && ValidRoll(f, job) && Holds(db, f.root.block)
    ensures Holds(BatchResult(db, job), job.newRoot.block)
  {
    InTreeAbove(f, job.newRoot, f.head);
    InTreeFacts(f, job.newRoot);
    FlattenIsState(db, f.root, job.newRoot);
  }

  lemma LiveDiskAbove(f: Forest, c: Chunk, r: Block)
    requires Valid(f) && InTree(f, c) && AncEq(f.root.block, r)
    ensures DiskAbove(f.disk, c, r)
  {
    InTreeFacts(f, c);
    forall d | Above(d, c) && (d.RootChunk? || d in f.disk)
      ensures AncEq(d.block, r)
    {
      if d !in f.disk {
        AboveComparable(d, f.root, c);
        AboveFacts(d, f.root);
      }
      AncEqTransitive(d.block, f.root.block, r);
    }
  }

  /** A root advance preserves meaning: for every live chunk at or below the new root and
      every business key the lookup is the state after the chunk's block before the batch,
      between the batch and the promotion, and after the promotion. */
  lemma RootAdvancePreservesMeaning(f: Forest, db: KV, job: RollJob, c: Chunk, name: seq<nat>)
    requires Valid(f) && ValidRoll(f, job) && Holds(db, f.root.block)
    requires InTree(f, c) && Above(job.newRoot, c)
    ensures var k := Business(name); var db' := BatchResult(db, job); var g := CommitRoll(f, job);
            && InTree(g, c)
            && Lookup(f.disk, db, c, k) == Value(c.block, k)
            && Lookup(f.disk, db', c, k) == Value(c.block, k)
            && Lookup(g.disk, db', c, k) == Value(c.block, k)
  {
    var k := Business(name);
    var n := job.newRoot;
    InTreeFacts(f, c);
    AboveFacts(n, c);
    AboveFacts(f.root, n);
    LiveDiskAbove(f, c, f.root.block);
    LookupIsState(f.disk, db, c, k, f.root.block);
    BatchHolds(f, db, job);
    LiveDiskAbove(f, c, n.block);
    LookupIsState(f.disk, BatchResult(db, job), c, k, n.block);
    CommitRollValid(f, job);
    LiveDiskAbove(CommitRoll(f, job), c, n.block);
    LookupIsState(CommitRoll(f, job).disk, BatchResult(db, job), c, k, n.block);
  }

  /** No layer on the walk of `c` down to the disk mentions `k`. */
  predicate Unmentioned(disk: set<Chunk>, c: Chunk, k: StateKey) {
    k !in Layer(c) && (c.RootChunk? || c in disk || Unmentioned(disk, c.parent, k))
  }

  lemma UnmentionedReadsDisk(disk: set<Chunk>, db: KV, c: Chunk, k: StateKey)
    requires Unmentioned(disk, c, k)
    ensures Lookup(disk, db, c, k) == Get(db, k)
  {
  }

  /** A live chunk the new root prunes keeps no such promise: once the batch is on disk, a key
      its branch never wrote reads as the winning branch's value, so the read is right exactly
      when the two branches agree on the key. This is the window readers must detect. */
  lemma PrunedBranchReadsNewRoot(f: Forest, db: KV, job: RollJob, c: Chunk, name: seq<nat>)
    requires Valid(f) && ValidRoll(f, job) && Holds(db, f.root.block)
    requires InTree(f, c) && Unmentioned(f.disk, c, Business(name))
    ensures Lookup(f.disk, BatchResult(db, job), c, Business(name)) == Value(job.newRoot.block, Business(name))
  {
    BatchHolds(f, db, job);
    UnmentionedReadsDisk(f.disk, BatchResult(db, job), c, Business(name));
  }
}
