/** Blocks, state deltas and chunk identities.

    A block is a value that contains its predecessor, so the block itself plays the
    role of its hash: two blocks are the same exactly when their hashes are, and the
    ancestry of a block is part of the block.  Execution is uninterpreted; what it
    writes is the `delta` carried by the block. */
module Blocks {

  import opened Options

  /** Keys of the state database: the two root markers and everything else. */
  datatype StateKey = RootHash | RootHeight | Business(name: seq<nat>)

  /** Stored values: plain bytes, a block hash, or a height. */
  datatype Cell = Data(bytes: seq<nat>) | HashCell(hash: Block) | HeightCell(height: nat)

  /** A layer of writes; `None` is a deletion marker. */
  type Delta = map<StateKey, Option<Cell>>

  type KV = map<StateKey, Cell>

  /** `number` is the height the block declares; `digest` is its hash read as a number,
      used only to order blocks. */
  datatype Block =
    | Genesis(init: KV)
    | Child(prev: Block, number: nat, txs: seq<nat>, delta: Delta, digest: nat)

  function Height(b: Block): nat {
    if b.Genesis? then 0 else b.number
  }

  function Digest(b: Block): nat {
    if b.Genesis? then 0 else b.digest
  }

  /** Declared heights count the distance from genesis. */
  predicate Linked(b: Block) {
    b.Child? ==> b.number == Height(b.prev) + 1 && Linked(b.prev)
  }

  /** `a` is `b` or an ancestor of `b`. */
  predicate AncEq(a: Block, b: Block) {
    a == b || (b.Child? && AncEq(a, b.prev))
  }

  /** The ancestor (or self) of `b` at height `h`. */
  function AncestorAt(b: Block, h: nat): (r: Block)
    requires Linked(b) && h <= Height(b)
    ensures Height(r) == h && AncEq(r, b) && Linked(r)
  {
    if Height(b) == h then b else AncestorAt(b.prev, h)
  }

  lemma AncEqHeight(a: Block, b: Block)
    requires AncEq(a, b) && Linked(b)
    ensures Height(a) <= Height(b) && Linked(a)
    ensures a == AncestorAt(b, Height(a))
    ensures Height(a) == Height(b) ==> a == b
  {
    if a != b {
      AncEqHeight(a, b.prev);
    }
  }

  lemma AncEqTransitive(a: Block, b: Block, c: Block)
    requires AncEq(a, b) && AncEq(b, c)
    ensures AncEq(a, c)
  {
    if b != c {
      AncEqTransitive(a, b, c.prev);
    }
  }

  /** Two ancestors of one block are comparable. */
  lemma AncEqComparable(a: Block, b: Block, c: Block)
    requires AncEq(a, c) && AncEq(b, c)
    ensures AncEq(a, b) || AncEq(b, a)
  {
    if a != c && b != c {
      AncEqComparable(a, b, c.prev);
    }
  }

  lemma AncestorAtCompose(b: Block, h: nat, g: nat)
    requires Linked(b) && g <= h <= Height(b)
    ensures AncestorAt(AncestorAt(b, h), g) == AncestorAt(b, g)
  {
    if Height(b) != h {
      AncestorAtCompose(b.prev, h, g);
    }
  }

  /** The blocks of `b`'s branch above height `lo`, with their heights, oldest first. */
  function Tail(b: Block, lo: int): seq<(nat, Block)> {
    if Height(b) <= lo then []
    else if b.Genesis? then [(0, b)]
    else Tail(b.prev, lo) + [(Height(b), b)]
  }

  lemma TailAt(b: Block, lo: nat)
    requires Linked(b) && lo <= Height(b)
    ensures |Tail(b, lo)| == Height(b) - lo
    ensures forall i :: 0 <= i < |Tail(b, lo)| ==> Tail(b, lo)[i] == (lo + 1 + i, AncestorAt(b, lo + 1 + i))
  {
    if lo < Height(b) {
      TailAt(b.prev, lo);
    }
  }

  // ---------------------------------------------------------------- state

  function Get(kv: KV, k: StateKey): (r: Option<Cell>) {
    if k in kv then Some(kv[k]) else None
  }

  /** One write of a batch: a put or a delete. */
  function Put(kv: KV, k: StateKey, v: Option<Cell>): (r: KV)
    ensures forall x :: Get(r, x) == if x == k then v else Get(kv, x)
  {
    if v.Some? then kv[k := v.value] else kv - {k}
  }

  /** Overlay a layer on a store. */
  function Overlay(kv: KV, d: Delta): (r: KV)
    ensures forall x :: Get(r, x) == if x in d then d[x] else Get(kv, x)
  {
    map x | x in kv.Keys + d.Keys && (x in d ==> d[x].Some?) :: if x in d then d[x].value else kv[x]
  }

  /** The state after executing `b`: the reference meaning of every state view. */
  function StateOf(b: Block): KV {
    if b.Genesis? then b.init else Overlay(StateOf(b.prev), b.delta)
  }

  function Value(b: Block, k: StateKey): Option<Cell> {
    Get(StateOf(b), k)
  }
}
