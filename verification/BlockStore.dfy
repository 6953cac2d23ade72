/** The block database: content-addressed bodies, a height index and a cursor. */
module BlockStore {
  import opened Options
  import opened Blocks

  /** `bodies` maps a hash to the block its stored bytes decode to; `cursor` is the highest
      available height, 0 when the cursor record is missing. */
  datatype BlockDb = BlockDb(bodies: map<Block, Block>, index: map<nat, Block>, cursor: nat)

  type HeightHash = (nat, Block)

  function PutBody(db: BlockDb, hash: Block, data: Block): BlockDb {
    db.(bodies := db.bodies[hash := data])
  }

  /** `put_block`: a body alone; genesis is refused. */
  function AfterPut(db: BlockDb, height: nat, hash: Block, data: Block): Option<BlockDb> {
    if height == 0 then None else Some(PutBody(db, hash, data))
  }

  /** `put_block_available`: append body, index and cursor together, one past the cursor. */
  function AfterAppend(db: BlockDb, height: nat, hash: Block, data: Block): Option<BlockDb> {
    if height == 0 || height != db.cursor + 1 then None
    else Some(PutBody(db, hash, data).(index := db.index[height := hash], cursor := height))
  }

  predicate Contiguous(path: seq<HeightHash>) {
    forall i :: 0 <= i < |path| - 1 ==> path[i].0 + 1 == path[i + 1].0
  }

  predicate BodiesKnown(db: BlockDb, hash: Block, path: seq<HeightHash>) {
    forall i :: 0 <= i < |path| ==> path[i].0 != 0 && (path[i].1 == hash || path[i].1 in db.bodies)
  }

  predicate ReorgAccepted(db: BlockDb, height: nat, hash: Block, path: seq<HeightHash>) {
    && height != 0 && path != [] && path[|path| - 1] == (height, hash)
    && Contiguous(path) && BodiesKnown(db, hash, path)
  }

  /** Index every entry of `path`, later entries winning. */
  function IndexPath(index: map<nat, Block>, path: seq<HeightHash>): map<nat, Block> {
    if path == [] then index
    else IndexPath(index, path[..|path| - 1])[path[|path| - 1].0 := path[|path| - 1].1]
  }

  function DropAbove(index: map<nat, Block>, height: nat, cursor: nat): map<nat, Block> {
    map h | h in index && !(height < h <= cursor) :: index[h]
  }

  /** `commit_reorg`: body, new path, stale tail and cursor in one batch. */
  function AfterReorg(db: BlockDb, height: nat, hash: Block, data: Block, path: seq<HeightHash>): Option<BlockDb> {
    if !ReorgAccepted(db, height, hash, path) then None
    else Some(PutBody(db, hash, data).(
           index := DropAbove(IndexPath(db.index, path), height, db.cursor), cursor := height))
  }

  /** `read_by_height`: an index entry without its body is an error, not a miss. */
  datatype ReadResult = NotFound | MissingBody | Found(hash: Block, data: Block)

  function ReadByHeight(db: BlockDb, height: nat): ReadResult {
    if height !in db.index then NotFound
    else if db.index[height] !in db.bodies then MissingBody
    else Found(db.index[height], db.bodies[db.index[height]])
  }

  function HasRecords(db: BlockDb): bool {
    db.bodies != map[] || db.index != map[] || db.cursor > 0
  }

  /** Indexing the branch of `b` above `lo` rewrites those heights and no other. */
  lemma IndexTail(index: map<nat, Block>, b: Block, lo: nat, h: nat)
    requires Linked(b)
    ensures h in IndexPath(index, Tail(b, lo)) <==> h in index || lo < h <= Height(b)
    ensures lo < h <= Height(b) ==> IndexPath(index, Tail(b, lo))[h] == AncestorAt(b, h)
    ensures h in index && !(lo < h <= Height(b)) ==> IndexPath(index, Tail(b, lo))[h] == index[h]
  {
    if lo < Height(b) {
      var t := Tail(b, lo);
      assert t[..|t| - 1] == Tail(b.prev, lo);
      IndexTail(index, b.prev, lo, h);
    }
  }

  /** The store as it runs; `tip` is the in-memory copy of the cursor, moved only after the
      batch is on disk. `accepts` says whether the disk takes the write. */
  class KvBlockStore {
    var bodies: map<Block, Block>
    var index: map<nat, Block>
    var cursor: nat
    var tip: nat

    function Db(): BlockDb
      reads this
    {
      BlockDb(bodies, index, cursor)
    }

    /** Opening reads the persisted cursor as it is. */
    constructor (db: BlockDb)
      ensures Db() == db && tip == cursor
    {
      bodies, index, cursor, tip := db.bodies, db.index, db.cursor, db.cursor;
    }

    method PutBlock(height: nat, hash: Block, data: Block, accepts: bool) returns (ok: bool)
      requires tip == cursor
      modifies this
      ensures tip == cursor
      ensures ok <==> accepts && AfterPut(old(Db()), height, hash, data).Some?
      ensures if ok then Some(Db()) == AfterPut(old(Db()), height, hash, data) else Db() == old(Db())
    {
      ok := height != 0 && accepts;
      if ok {
        bodies := bodies[hash := data];
      }
    }

    method PutBlockAvailable(height: nat, hash: Block, data: Block, accepts: bool) returns (ok: bool)
      requires tip == cursor
      modifies this
      ensures tip == cursor
      ensures ok <==> accepts && AfterAppend(old(Db()), height, hash, data).Some?
      ensures if ok then Some(Db()) == AfterAppend(old(Db()), height, hash, data) else Db() == old(Db())
    {
      if height == 0 || height != tip + 1 {
        return false;
      }
      if !accepts {
        return false;
      }
      bodies, index, cursor := bodies[hash := data], index[height := hash], height;
      tip := height;
      ok := true;
    }

    /** The three scans of `commit_reorg` over the path. */
    method CheckPath(height: nat, hash: Block, path: seq<HeightHash>) returns (ok: bool)
      ensures ok <==> ReorgAccepted(Db(), height, hash, path)
    {
      if height == 0 || path == [] || path[|path| - 1] != (height, hash) {
        return false;
      }
      for i := 0 to |path| - 1
        invariant forall j :: 0 <= j < i ==> path[j].0 + 1 == path[j + 1].0
      {
        if path[i].0 + 1 != path[i + 1].0 {
          return false;
        }
      }
      for i := 0 to |path|
        invariant forall j :: 0 <= j < i ==> path[j].0 != 0 && (path[j].1 == hash || path[j].1 in bodies)
      {
        if path[i].0 == 0 || (path[i].1 != hash && path[i].1 !in bodies) {
          return false;
        }
      }
      ok := true;
    }

    /** The index part of the batch: puts for the path, deletes for the stale tail. */
    method ReorgIndex(height: nat, path: seq<HeightHash>) returns (next: map<nat, Block>)
      ensures next == DropAbove(IndexPath(index, path), height, tip)
    {
      next := index;
      for i := 0 to |path|
        invariant next == IndexPath(index, path[..i])
      {
        assert path[..i + 1][..i] == path[..i];
        next := next[path[i].0 := path[i].1];
      }
      assert path[..|path|] == path;
      var stale := height + 1;
      while stale <= tip
        invariant height < stale
        invariant next == map h | h in IndexPath(index, path) && !(height < h < stale && h <= tip)
                              :: IndexPath(index, path)[h]
        decreases tip + 1 - stale
      {
        next := next - {stale};
        stale := stale + 1;
      }
    }

    method CommitReorg(height: nat, hash: Block, data: Block, path: seq<HeightHash>, accepts: bool) returns (ok: bool)
      requires tip == cursor
      modifies this
      ensures tip == cursor
      ensures ok <==> accepts && AfterReorg(old(Db()), height, hash, data, path).Some?
      ensures if ok then Some(Db()) == AfterReorg(old(Db()), height, hash, data, path) else Db() == old(Db())
    {
      ok := CheckPath(height, hash, path);
      if !ok || !accepts {
        return false;
      }
      var next := ReorgIndex(height, path);
      bodies, index, cursor := bodies[hash := data], next, height;
      tip := height;
    }
  }

  // ------------------------------------------------------------ what a healthy store holds

  /** Height `h` is indexed exactly when it is on the branch of `p` above genesis, and then
      with the block of that branch, whose body is stored. */
  predicate IndexedAt(db: BlockDb, p: Block, h: nat)
    requires Linked(p)
  {
    && (h in db.index <==> 1 <= h <= Height(p))
    && (1 <= h <= Height(p) ==> db.index[h] == AncestorAt(p, h) && Stored(db, AncestorAt(p, h)))
  }

  /** The index is exactly the branch of `p` above genesis, and every block on it is stored. */
  ghost predicate Indexes(db: BlockDb, p: Block) {
    Linked(p) && db.cursor == Height(p) && forall h :: IndexedAt(db, p, h)
  }

  /** The body of `b` is stored and decodes to `b`. */
  predicate Stored(db: BlockDb, b: Block) {
    b in db.bodies && db.bodies[b] == b
  }

  /** Appending a child of the indexed tip is always accepted and indexes the child. */
  lemma AppendIndexes(db: BlockDb, p: Block, b: Block)
    requires Indexes(db, p) && b.Child? && b.prev == p && Linked(b)
    ensures var r := AfterAppend(db, Height(b), b, b); r.Some? && Indexes(r.value, b)
  {
    var d := AfterAppend(db, Height(b), b, b).value;
    forall h: nat ensures IndexedAt(d, b, h) {
      assert IndexedAt(db, p, h);
    }
  }

  /** The blocks of `b`'s branch strictly between height `lo` and `b` are stored. */
  ghost predicate BranchStored(db: BlockDb, b: Block, lo: nat)
    requires Linked(b)
  {
    forall h :: lo < h < Height(b) ==> Stored(db, AncestorAt(b, h))
  }

  /** A reorg from the durable root `r` to `b` is always accepted when the new branch's older
      blocks are stored, and leaves the index exactly on the branch of `b`. */
  lemma ReorgIndexes(db: BlockDb, p: Block, r: Block, b: Block)
    requires Indexes(db, p) && Linked(b) && AncEq(r, p) && AncEq(r, b) && Height(r) < Height(b)
    requires BranchStored(db, b, Height(r))
    ensures var q := AfterReorg(db, Height(b), b, b, Tail(b, Height(r))); q.Some? && Indexes(q.value, b)
  {
    ReorgIsAccepted(db, r, b);
    var d := AfterReorg(db, Height(b), b, b, Tail(b, Height(r))).value;
    forall h: nat ensures IndexedAt(d, b, h) {
      ReorgIndexAt(db, p, r, b, h);
    }
  }

  lemma ReorgIsAccepted(db: BlockDb, r: Block, b: Block)
    requires Linked(b) && Height(r) < Height(b) && BranchStored(db, b, Height(r))
    ensures ReorgAccepted(db, Height(b), b, Tail(b, Height(r)))
  {
    TailAt(b, Height(r));
  }

  lemma ReorgIndexAt(db: BlockDb, p: Block, r: Block, b: Block, h: nat)
    requires Indexes(db, p) && Linked(b) && AncEq(r, p) && AncEq(r, b) && Height(r) < Height(b)
    requires BranchStored(db, b, Height(r))
    ensures var index := DropAbove(IndexPath(db.index, Tail(b, Height(r))), Height(b), db.cursor);
            && (h in index <==> 1 <= h <= Height(b))
            && (1 <= h <= Height(b) ==> index[h] == AncestorAt(b, h))
    ensures 1 <= h < Height(b) ==> Stored(db, AncestorAt(b, h))
  {
    IndexTail(db.index, b, Height(r), h);
    assert IndexedAt(db, p, h);
    AncEqHeight(r, p);
    AncEqHeight(r, b);
    if 1 <= h <= Height(r) {
      AncestorAtCompose(b, Height(r), h);
      AncestorAtCompose(p, Height(r), h);
    }
  }

  // ------------------------------------------------------------ any sequence of calls

  /** The index has no gap up to the cursor, nothing above it, and every body it names. */
  ghost predicate Whole(db: BlockDb) {
    && (forall h :: h in db.index <==> 1 <= h <= db.cursor)
    && (forall h :: h in db.index ==> db.index[h] in db.bodies)
  }

  /** Bodies and appends keep the store whole, whatever they are called with. */
  lemma WritesKeepWhole(db: BlockDb, height: nat, hash: Block, data: Block)
    requires Whole(db)
    ensures AfterPut(db, height, hash, data).Some? ==> Whole(AfterPut(db, height, hash, data).value)
    ensures AfterAppend(db, height, hash, data).Some? ==> Whole(AfterAppend(db, height, hash, data).value)
  {
  }

  lemma {:induction false} PathIndexes(index: map<nat, Block>, path: seq<HeightHash>, h: nat)
    requires path != [] && Contiguous(path)
    ensures path[|path| - 1].0 == path[0].0 + |path| - 1
    ensures h in IndexPath(index, path) <==> h in index || path[0].0 <= h < path[0].0 + |path|
    ensures path[0].0 <= h < path[0].0 + |path| ==> IndexPath(index, path)[h] == path[h - path[0].0].1
    ensures h in index && !(path[0].0 <= h < path[0].0 + |path|) ==> IndexPath(index, path)[h] == index[h]
  {
    var n := |path| - 1;
    if n == 0 {
      assert path[..0] == [];
    } else {
      PathIndexes(index, path[..n], h);
    }
  }

  /** An accepted reorg keeps the store whole exactly when its path starts no higher than right
      above the cursor; the gap below a higher path is not looked for. */
  lemma ReorgKeepsWholeIff(db: BlockDb, height: nat, hash: Block, data: Block, path: seq<HeightHash>)
    requires Whole(db) && AfterReorg(db, height, hash, data, path).Some?
    ensures Whole(AfterReorg(db, height, hash, data, path).value) <==> path[0].0 <= db.cursor + 1
  {
    var next := AfterReorg(db, height, hash, data, path).value;
    forall h: nat
      ensures h in next.index <==> 1 <= h <= height && (h <= db.cursor || path[0].0 <= h)
      ensures h in next.index ==> next.index[h] in next.bodies
    {
      PathIndexes(db.index, path, h);
    }
    PathIndexes(db.index, path, 0);
    var gap := db.cursor + 1;
    assert path[0].0 > gap ==> gap !in next.index && gap <= height;
  }

  /** What a reorg must be: a path of stored blocks, one height after the other from at least one,
      that ends in the new block. */
  lemma ReorgAcceptedMeans(db: BlockDb, height: nat, hash: Block, data: Block, path: seq<HeightHash>)
    requires AfterReorg(db, height, hash, data, path).Some?
    ensures path != [] && 1 <= path[0].0 && path[|path| - 1] == (height, hash)
    ensures forall i :: 0 <= i < |path| ==> path[i].0 == path[0].0 + i && (path[i].1 in db.bodies || path[i].1 == hash)
  {
    forall i | 0 <= i < |path| ensures path[i].0 == path[0].0 + i {
      var t := path[..i + 1];
      PathIndexes(db.index, t, 0);
    }
  }
}
