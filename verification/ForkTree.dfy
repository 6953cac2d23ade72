/** The fork tree as a value, and what each tree operation means.

    A chunk is the immutable identity of one executed block: `uid` stands for its
    address, so chunk equality is pointer equality.  What changes in place (the
    children lists, which chunks read the disk, which are frozen) lives in `Forest`. */
module ForkTree {
  import opened Options
  import opened Blocks

  datatype Chunk =
    | RootChunk(uid: nat, block: Block, key: real)
    | Node(uid: nat, block: Block, key: real, parent: Chunk)

  /** `root` is durable, `sched` is the last root handed to persistence. `kids` are the
      strong children lists, `disk` the chunks whose source is the state database. */
  datatype Forest = Forest(
    root: Chunk, sched: Chunk, head: Chunk,
    kids: map<Chunk, seq<Chunk>>, disk: set<Chunk>, frozen: set<Chunk>, epoch: nat)

  /** A root advance: `chain` is oldest first, from just above the old root to `newRoot`. */
  datatype RollJob = RollJob(expectedHash: Block, expectedHeight: nat, newRoot: Chunk, chain: seq<Chunk>)

  /** Transactions that join and leave the canonical branch when the head moves. */
  datatype TxChange = TxChange(confirmed: seq<nat>, reverted: seq<nat>)

  datatype Inserted = Inserted(isHead: bool, reorg: bool, roll: Option<RollJob>, txs: TxChange)

  datatype AttachResult = Refused | Attached(forest: Forest, inserted: Inserted)

  const U64: nat := 0x1_0000_0000_0000_0000

  // ------------------------------------------------------------ chunk ancestry

  function HeightOf(c: Chunk): nat { Height(c.block) }

  /** The layer of writes a chunk adds; a chunk born as the root adds none. */
  function Layer(c: Chunk): Delta {
    if c.Node? && c.block.Child? then c.block.delta else map[]
  }

  predicate LinkOk(c: Chunk) {
    c.Node? ==> c.block.Child? && c.block.prev == c.parent.block && c.block.number == HeightOf(c.parent) + 1
  }

  predicate WellLinked(c: Chunk) {
    LinkOk(c) && (c.Node? ==> WellLinked(c.parent))
  }

  /** `a` is `c` or is reached from `c` by parent links. */
  predicate Above(a: Chunk, c: Chunk) {
    a == c || (c.Node? && Above(a, c.parent))
  }

  /** The chunks after `a` up to and including `c`, oldest first. */
  function Path(a: Chunk, c: Chunk): (r: seq<Chunk>)
    requires Above(a, c)
  {
    if a == c then [] else Path(a, c.parent) + [c]
  }

  /** The ancestor chunk of `c` at height `h`, at or above `a`. */
  function ChunkAt(a: Chunk, c: Chunk, h: nat): (r: Chunk)
    requires WellLinked(c) && Above(a, c) && HeightOf(a) <= h <= HeightOf(c)
    ensures HeightOf(r) == h && Above(a, r) && Above(r, c) && WellLinked(r)
  {
    if HeightOf(c) == h then c else ChunkAt(a, c.parent, h)
  }

  lemma AboveFacts(a: Chunk, c: Chunk)
    requires WellLinked(c) && Above(a, c)
    ensures WellLinked(a) && HeightOf(a) <= HeightOf(c) && AncEq(a.block, c.block)
    ensures HeightOf(a) == HeightOf(c) ==> a == c
    ensures |Path(a, c)| == HeightOf(c) - HeightOf(a)
    ensures a == ChunkAt(a, c, HeightOf(a))
  {
    if a != c {
      AboveFacts(a, c.parent);
    }
  }

  lemma AboveTransitive(a: Chunk, b: Chunk, c: Chunk)
    requires Above(a, b) && Above(b, c)
    ensures Above(a, c)
    ensures Path(a, c) == Path(a, b) + Path(b, c)
  {
    if b != c {
      AboveTransitive(a, b, c.parent);
      NoCycle(c, b);
    }
  }

  lemma AboveSize(a: Chunk, c: Chunk)
    requires Above(a, c)
    ensures a == c || Depth(a) < Depth(c)
  {
  }

  function Depth(c: Chunk): nat {
    if c.RootChunk? then 0 else 1 + Depth(c.parent)
  }

  /** Parent links never lead back. */
  lemma NoCycle(a: Chunk, b: Chunk)
    requires a.Node? && Above(b, a.parent)
    ensures !Above(a, b)
  {
    AboveSize(b, a.parent);
    if Above(a, b) {
      AboveSize(a, b);
    }
  }

  lemma AboveComparable(a: Chunk, b: Chunk, c: Chunk)
    requires Above(a, c) && Above(b, c)
    ensures Above(a, b) || Above(b, a)
  {
    if a != c && b != c {
      AboveComparable(a, b, c.parent);
    }
  }

  /** Every chunk on a path sits between its ends, one height per step. */
  lemma PathFacts(a: Chunk, c: Chunk, i: nat)
    requires WellLinked(c) && Above(a, c) && i < |Path(a, c)|
    ensures var p := Path(a, c)[i];
            && p.Node? && Above(a, p) && Above(p, c) && WellLinked(p)
            && HeightOf(p) == HeightOf(a) + i + 1
            && p.parent == (if i == 0 then a else Path(a, c)[i - 1])
    ensures Path(a, c)[|Path(a, c)| - 1] == c
  {
    AboveFacts(a, c);
    AboveFacts(a, c.parent);
    if i < |Path(a, c)| - 1 {
      PathFacts(a, c.parent, i);
    } else if i > 0 {
      PathFacts(a, c.parent, i - 1);
    }
  }

  // ------------------------------------------------------------ the forest

  function Kids(f: Forest, c: Chunk): seq<Chunk> {
    if c in f.kids then f.kids[c] else []
  }

  /** Reachable from the root through children lists. */
  predicate InTree(f: Forest, c: Chunk) {
    c == f.root || (c.Node? && c in Kids(f, c.parent) && InTree(f, c.parent))
  }

  /** The parent a chunk reports: none once it reads the disk. */
  function ParentOf(f: Forest, c: Chunk): Option<Chunk> {
    if c.Node? && c !in f.disk then Some(c.parent) else None
  }

  ghost predicate KidsOk(f: Forest) {
    && f.kids.Keys <= f.frozen
    && (forall p, i :: p in f.kids && 0 <= i < |f.kids[p]| ==>
          var c := f.kids[p][i]; c.Node? && c.parent == p && LinkOk(c) && c in f.frozen)
    && (forall p, i, j :: p in f.kids && 0 <= i < j < |f.kids[p]| ==> f.kids[p][i].block != f.kids[p][j].block)
  }

  ghost predicate Valid(f: Forest) {
    && WellLinked(f.root) && Linked(f.root.block) && f.root in f.disk && f.root in f.frozen
    && KidsOk(f)
    && (forall d :: d in f.disk ==> AncEq(d.block, f.root.block))
    && InTree(f, f.head)
    && f.epoch < U64
  }

  lemma InTreeFacts(f: Forest, c: Chunk)
    requires Valid(f) && InTree(f, c)
    ensures Above(f.root, c) && WellLinked(c) && Linked(c.block) && AncEq(f.root.block, c.block)
    ensures HeightOf(f.root) <= HeightOf(c)
    ensures c in f.disk <==> c == f.root
    ensures c in f.frozen
  {
    InTreeLinked(f, c);
    AboveFacts(f.root, c);
    if c in f.disk {
      AncEqHeight(c.block, f.root.block);
    }
  }

  lemma InTreeLinked(f: Forest, c: Chunk)
    requires Valid(f) && InTree(f, c)
    ensures Above(f.root, c) && WellLinked(c) && Linked(c.block) && c in f.frozen
  {
    if c != f.root {
      InTreeLinked(f, c.parent);
    }
  }

  /** Ancestors of a live chunk, from the root on, are live. */
  lemma InTreeAbove(f: Forest, a: Chunk, c: Chunk)
    requires InTree(f, c) && Above(f.root, a) && Above(a, c)
    ensures InTree(f, a)
  {
    if a != c {
      NoCycle(c, a);
      InTreeAbove(f, a, c.parent);
    }
  }

  /** A block is held by at most one live chunk. */
  lemma InTreeUnique(f: Forest, a: Chunk, b: Chunk)
    requires Valid(f) && InTree(f, a) && InTree(f, b) && a.block == b.block
    ensures a == b
  {
    InTreeFacts(f, a);
    InTreeFacts(f, b);
    AboveFacts(f.root, a);
    AboveFacts(f.root, b);
    if a != f.root && b != f.root {
      InTreeUnique(f, a.parent, b.parent);
    }
  }

  /** Every chunk a children list mentions, and the root: what a search can visit. */
  ghost function AllChunks(f: Forest): set<Chunk> {
    {f.root} + set p, c | p in f.kids && c in f.kids[p] :: c
  }

  lemma InTreeAll(f: Forest, c: Chunk)
    requires InTree(f, c)
    ensures c in AllChunks(f)
  {
    if c != f.root {
      assert c.parent in f.kids && c in f.kids[c.parent];
    }
  }

  // ------------------------------------------------------------ transaction changes

  /** The two-pointer walk of `canonical_tx_diff`: lift the deeper side, then both, until
      they meet. `r` is a chunk both descend from. */
  function ForkPoint(r: Chunk, a: Chunk, b: Chunk): (p: Chunk)
    requires WellLinked(a) && WellLinked(b) && Above(r, a) && Above(r, b)
    ensures Above(r, p) && Above(p, a) && Above(p, b)
    decreases HeightOf(a) + HeightOf(b)
  {
    AboveFacts(r, a);
    AboveFacts(r, b);
    if a == b then a
    else if HeightOf(a) > HeightOf(b) then ForkPoint(r, a.parent, b)
    else if HeightOf(b) > HeightOf(a) then ForkPoint(r, a, b.parent)
    else ForkPoint(r, a.parent, b.parent)
  }

  /** The walk meets at the lowest common ancestor. */
  lemma ForkPointLowest(r: Chunk, a: Chunk, b: Chunk, c: Chunk)
    requires WellLinked(a) && WellLinked(b) && Above(r, a) && Above(r, b)
    requires Above(c, a) && Above(c, b)
    ensures Above(c, ForkPoint(r, a, b))
    decreases HeightOf(a) + HeightOf(b)
  {
    AboveFacts(r, a);
    AboveFacts(r, b);
    AboveFacts(c, a);
    AboveFacts(c, b);
    if a == b {
    } else if HeightOf(a) > HeightOf(b) {
      ForkPointLowest(r, a.parent, b, c);
    } else if HeightOf(b) > HeightOf(a) {
      ForkPointLowest(r, a, b.parent, c);
    } else {
      ForkPointLowest(r, a.parent, b.parent, c);
    }
  }

  function TxsOf(path: seq<Chunk>): seq<nat> {
    if path == [] then []
    else TxsOf(path[..|path| - 1]) + (if path[|path| - 1].block.Child? then path[|path| - 1].block.txs else [])
  }

  function Minus(s: seq<nat>, drop: seq<nat>): (r: seq<nat>)
    ensures forall x :: x in r <==> x in s && x !in drop
  {
    if s == [] then []
    else Minus(s[..|s| - 1], drop) + (if s[|s| - 1] in drop then [] else [s[|s| - 1]])
  }

  /** `canonical_tx_diff`: both branches above the fork point, less what they share. */
  function TxDiff(r: Chunk, oldHead: Chunk, newHead: Chunk): TxChange
    requires WellLinked(oldHead) && WellLinked(newHead) && Above(r, oldHead) && Above(r, newHead)
  {
    var p := ForkPoint(r, oldHead, newHead);
    var oldTxs, newTxs := TxsOf(Path(p, oldHead)), TxsOf(Path(p, newHead));
    TxChange(Minus(newTxs, oldTxs), Minus(oldTxs, newTxs))
  }

  // ------------------------------------------------------------ operations

  /** The live chunk holding block `h`, found along the ancestry of `h`. */
  function Find(f: Forest, h: Block): (r: Option<Chunk>)
    ensures r.Some? ==> InTree(f, r.value) && r.value.block == h
  {
    if h == f.root.block then Some(f.root)
    else if h.Genesis? then None
    else match Find(f, h.prev)
      case None => None
      case Some(p) => PickKid(Kids(f, p), p, h)
  }

  function PickKid(kids: seq<Chunk>, p: Chunk, h: Block): (r: Option<Chunk>)
    ensures r.Some? ==> r.value in kids && r.value.Node? && r.value.parent == p && r.value.block == h
    ensures r.None? ==> forall c :: c in kids && c.Node? && c.parent == p ==> c.block != h
  {
    if kids == [] then None
    else if kids[0].Node? && kids[0].parent == p && kids[0].block == h then Some(kids[0])
    else PickKid(kids[1..], p, h)
  }

  /** Searching by ancestry and searching the whole tree agree. */
  lemma FindComplete(f: Forest, c: Chunk)
    requires Valid(f) && InTree(f, c)
    ensures Find(f, c.block) == Some(c)
  {
    InTreeFacts(f, c);
    AboveFacts(f.root, c);
    if c != f.root {
      InTreeFacts(f, c.parent);
      AboveFacts(f.root, c.parent);
      FindComplete(f, c.parent);
      InTreeUnique(f, Find(f, c.block).value, c);
    }
  }

  /** `plan_roll_from`: the branch from the scheduled root to the ancestor of `head`
      at `newHeight`; none if it does not advance or `head` leaves the scheduled root. */
  function PlanRoll(f: Forest, head: Chunk, newHeight: nat): (r: Option<RollJob>)
    requires WellLinked(head)
  {
    if newHeight <= HeightOf(f.sched) || !Above(f.sched, head) then None
    else
      AboveFacts(f.sched, head);
      var n := ChunkAt(f.sched, head, if newHeight <= HeightOf(head) then newHeight else HeightOf(head));
      Some(RollJob(f.sched.block, HeightOf(f.sched), n, Path(f.sched, n)))
  }

  /** The roll an attach plans: strict advances one block past the window, linear a whole
      window once the head reaches it. The outer option is a failed plan. */
  function RollFor(f: Forest, chunk: Chunk, window: nat, linear: bool): (r: Option<Option<RollJob>>)
    requires WellLinked(chunk)
  {
    var sh := HeightOf(f.sched);
    var over := if linear then HeightOf(chunk) >= sh + window else HeightOf(chunk) > sh + window;
    if !over then Some(None)
    else match PlanRoll(f, chunk, sh + (if linear then window else 1))
      case None => None
      case Some(job) => Some(Some(job))
  }

  /** The checks every attach makes before it plans anything. */
  predicate MayAttach(f: Forest, parentHash: Block, chunk: Chunk) {
    && Find(f, parentHash).Some?
    && chunk.block.Child?
    && HeightOf(chunk) == HeightOf(Find(f, parentHash).value) + 1
    && Find(f, chunk.block).None?
    && ParentOf(f, chunk) == Find(f, parentHash)
    && chunk !in f.frozen
  }

  function AddChild(f: Forest, chunk: Chunk): Forest
    requires chunk.Node?
  {
    f.(kids := f.kids[chunk.parent := Kids(f, chunk.parent) + [chunk]], frozen := f.frozen + {chunk})
  }

  /** Wrapping 64-bit increment. */
  function NextEpoch(epoch: nat): nat {
    if epoch + 1 < U64 then epoch + 1 else 0
  }

  /** Becoming the head: the epoch moves, and the scheduled root follows a planned roll. */
  function AdoptHead(f: Forest, chunk: Chunk, roll: Option<RollJob>): Forest {
    f.(head := chunk, epoch := NextEpoch(f.epoch), sched := if roll.Some? then roll.value.newRoot else f.sched)
  }

  /** A block names its parent by hash; execution was opened on a block that does. */
  predicate Opened(chunk: Chunk) {
    chunk.Node? && chunk.block.Child? && chunk.block.prev == chunk.parent.block
  }

  /** The part of an attach that becomes head: plan the roll, publish, move head and epoch. */
  ghost function AttachAsHead(f: Forest, chunk: Chunk, reorg: bool, window: nat, linear: bool): (r: AttachResult)
    requires Valid(f) && chunk.Node? && InTree(f, chunk.parent) && LinkOk(chunk)
  {
    InTreeFacts(f, chunk.parent);
    InTreeFacts(f, f.head);
    match RollFor(f, chunk, window, linear)
    case None => Refused
    case Some(roll) =>
      Attached(AdoptHead(AddChild(f, chunk), chunk, roll), Inserted(true, reorg, roll, TxDiff(f.root, f.head, chunk)))
  }

  /** `attach` and `attach_linear`. */
  ghost function Attach(f: Forest, parentHash: Block, chunk: Chunk, window: nat, linear: bool): (r: AttachResult)
    requires Opened(chunk)
    requires Valid(f)
  {
    if !MayAttach(f, parentHash, chunk) then Refused
    else
      var isHead := chunk.key > f.head.key;
      var reorg := isHead && chunk.parent != f.head;
      if linear && (chunk.parent != f.head || !isHead) then Refused
      else if !isHead then Attached(AddChild(f, chunk), Inserted(false, false, None, TxChange([], [])))
      else AttachAsHead(f, chunk, reorg, window, linear)
  }

  /** `attach_side`: boot re-attaches side blocks without moving the head. */
  function AttachSide(f: Forest, parentHash: Block, chunk: Chunk): (r: AttachResult)
    requires Opened(chunk)
  {
    if !MayAttach(f, parentHash, chunk) then Refused
    else Attached(AddChild(f, chunk), Inserted(false, false, None, TxChange([], [])))
  }

  /** What `validate_roll` accepts. */
  predicate ValidRoll(f: Forest, job: RollJob) {
    && job.expectedHash == f.root.block && job.expectedHeight == HeightOf(f.root)
    && job.newRoot != f.root
    && Above(f.root, job.newRoot) && Above(job.newRoot, f.head)
    && job.chain == Path(f.root, job.newRoot)
  }

  function CommitRoll(f: Forest, job: RollJob): Forest {
    f.(root := job.newRoot, disk := f.disk + {job.newRoot})
  }

  // ------------------------------------------------------------ preservation

  /** Adding a child keeps every live chunk live. */
  lemma AddChildKeeps(f: Forest, chunk: Chunk, c: Chunk)
    requires chunk.Node? && InTree(f, c)
    ensures InTree(AddChild(f, chunk), c)
  {
    if c != f.root {
      AddChildKeeps(f, chunk, c.parent);
    }
  }

  /** ... and makes only the new chunk live. */
  lemma AddChildOnly(f: Forest, chunk: Chunk, c: Chunk)
    requires chunk.Node? && InTree(AddChild(f, chunk), c) && Kids(f, chunk) == []
    ensures c == chunk || InTree(f, c)
  {
    if c != f.root && c != chunk {
      AddChildOnly(f, chunk, c.parent);
    }
  }

  lemma AddChildValid(f: Forest, parentHash: Block, chunk: Chunk)
    requires Valid(f) && Opened(chunk) && MayAttach(f, parentHash, chunk)
    ensures Valid(AddChild(f, chunk))
    ensures InTree(AddChild(f, chunk), chunk)
  {
    var g := AddChild(f, chunk);
    var p := chunk.parent;
    InTreeFacts(f, p);
    AddChildKeeps(f, chunk, f.head);
    AddChildKeeps(f, chunk, p);
    forall i | 0 <= i < |Kids(f, p)|
      ensures Kids(f, p)[i].block != chunk.block
    {
      var k := Kids(f, p)[i];
      if k.block == chunk.block {
        assert InTree(f, k);
        FindComplete(f, k);
        assert false;
      }
    }
  }

  /** Adopting a head keeps the tree valid. */
  lemma AdoptHeadValid(f: Forest, chunk: Chunk, roll: Option<RollJob>)
    requires Valid(f) && InTree(f, chunk)
    ensures Valid(AdoptHead(f, chunk, roll))
    ensures forall c :: InTree(f, c) <==> InTree(AdoptHead(f, chunk, roll), c)
  {
    var g := AdoptHead(f, chunk, roll);
    forall c ensures InTree(f, c) <==> InTree(g, c) {
      SameShape(f, g, c);
    }
  }

  lemma SameShape(f: Forest, g: Forest, c: Chunk)
    requires f.root == g.root && f.kids == g.kids
    ensures InTree(f, c) <==> InTree(g, c)
  {
  }

  /** Attaching keeps the tree valid, in both modes, and loses no live chunk. */
  lemma AttachValid(f: Forest, parentHash: Block, chunk: Chunk, window: nat, linear: bool)
    requires Valid(f) && Opened(chunk)
    ensures var r := Attach(f, parentHash, chunk, window, linear);
            r.Attached? ==>
              && Valid(r.forest)
              && InTree(r.forest, chunk)
              && (forall c :: InTree(f, c) ==> InTree(r.forest, c))
              && (forall c :: InTree(r.forest, c) ==> c == chunk || InTree(f, c))
  {
    var r := Attach(f, parentHash, chunk, window, linear);
    if r.Attached? {
      var g := AddChild(f, chunk);
      AddChildValid(f, parentHash, chunk);
      AddChildLive(f, chunk);
      if r.inserted.isHead {
        AdoptHeadValid(g, chunk, r.inserted.roll);
      }
    }
  }

  lemma AddChildLive(f: Forest, chunk: Chunk)
    requires Valid(f) && chunk.Node? && chunk !in f.frozen
    ensures forall c :: InTree(f, c) ==> InTree(AddChild(f, chunk), c)
    ensures forall c :: InTree(AddChild(f, chunk), c) ==> c == chunk || InTree(f, c)
  {
    forall c | InTree(f, c) ensures InTree(AddChild(f, chunk), c) {
      AddChildKeeps(f, chunk, c);
    }
    forall c | InTree(AddChild(f, chunk), c) ensures c == chunk || InTree(f, c) {
      AddChildOnly(f, chunk, c);
    }
  }

  /** Committing a validated roll keeps the tree valid; what stays live is exactly what
      descends from the new root. */
  lemma CommitRollValid(f: Forest, job: RollJob)
    requires Valid(f) && ValidRoll(f, job)
    ensures Valid(CommitRoll(f, job))
    ensures forall c :: InTree(CommitRoll(f, job), c) <==> InTree(f, c) && Above(job.newRoot, c)
  {
    var n := job.newRoot;
    var g := CommitRoll(f, job);
    InTreeAbove(f, n, f.head);
    InTreeFacts(f, n);
    forall c ensures InTree(g, c) <==> InTree(f, c) && Above(n, c) {
      CommitRollLive(f, job, c);
    }
    forall d | d in g.disk ensures AncEq(d.block, n.block) {
      if d != n {
        AncEqTransitive(d.block, f.root.block, n.block);
      }
    }
  }

  lemma CommitRollLive(f: Forest, job: RollJob, c: Chunk)
    requires InTree(f, job.newRoot) && Above(f.root, job.newRoot)
    ensures InTree(CommitRoll(f, job), c) <==> InTree(f, c) && Above(job.newRoot, c)
  {
    if c != job.newRoot && c.Node? {
      CommitRollLive(f, job, c.parent);
      if c == f.root && Above(job.newRoot, c.parent) {
        NoCycle(c, job.newRoot);
      }
    }
  }
}
