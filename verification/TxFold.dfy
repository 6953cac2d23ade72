/** The reported transaction changes, folded over a run, are the canonical transactions. */
module TxFold {
  import opened Blocks
  import opened ForkTree
  import opened SideEviction

  /** Every transaction on the branch of `b`. */
  function TxSet(b: Block): set<nat> {
    if b.Genesis? then {} else TxSet(b.prev) + set t | t in b.txs
  }

  /** No block of the branch repeats a transaction of an earlier one. */
  predicate NoRepeat(b: Block) {
    b.Child? ==> NoRepeat(b.prev) && forall t :: t in b.txs ==> t !in TxSet(b.prev)
  }

  function Apply(s: set<nat>, c: TxChange): set<nat> {
    (s - set t | t in c.reverted) + set t | t in c.confirmed
  }

  lemma TxsSplit(p: Chunk, c: Chunk)
    requires WellLinked(c) && Above(p, c)
    ensures forall t :: t in TxSet(c.block) <==> t in TxSet(p.block) || t in TxsOf(Path(p, c))
  {
    if p != c {
      TxsSplit(p, c.parent);
      var q := Path(p, c);
      assert q[..|q| - 1] == Path(p, c.parent);
    }
  }

  /** Every transaction that only the old branch has above the fork point is new there. */
  ghost predicate LeaversAreNew(p: Chunk, oldHead: Chunk, newHead: Chunk)
    requires Above(p, oldHead) && Above(p, newHead)
  {
    forall t :: t in TxsOf(Path(p, oldHead)) && t !in TxsOf(Path(p, newHead)) ==> t !in TxSet(p.block)
  }

  /** The report is right exactly when no transaction that leaves with the old branch also lies
      at or below the fork point: there it would be reported as reverted yet stay confirmed. */
  lemma TxDiffFolds(r: Chunk, oldHead: Chunk, newHead: Chunk)
    requires WellLinked(oldHead) && WellLinked(newHead) && Above(r, oldHead) && Above(r, newHead)
    ensures Apply(TxSet(oldHead.block), TxDiff(r, oldHead, newHead)) == TxSet(newHead.block)
       <==> LeaversAreNew(ForkPoint(r, oldHead, newHead), oldHead, newHead)
  {
    var p := ForkPoint(r, oldHead, newHead);
    TxsSplit(p, oldHead);
    TxsSplit(p, newHead);
    SetsFold(TxSet(p.block), TxSet(oldHead.block), TxSet(newHead.block), TxsOf(Path(p, oldHead)),
             TxsOf(Path(p, newHead)));
  }

  /** The same on sets: `base` is shared, `olds` and `news` lie above it. */
  lemma SetsFold(base: set<nat>, before: set<nat>, after: set<nat>, olds: seq<nat>, news: seq<nat>)
    requires forall t :: t in before <==> t in base || t in olds
    requires forall t :: t in after <==> t in base || t in news
    ensures Apply(before, TxChange(Minus(news, olds), Minus(olds, news))) == after
       <==> forall t :: t in olds && t !in news ==> t !in base
  {
    var d := TxChange(Minus(news, olds), Minus(olds, news));
    forall t ensures t in Apply(before, d) <==> (t in before && t !in d.reverted) || t in d.confirmed {}
    if forall t :: t in olds && t !in news ==> t !in base {
      forall t ensures t in Apply(before, d) <==> t in after {}
    } else {
      var t :| t in olds && t !in news && t in base;
      assert t in after && t !in Apply(before, d);
    }
  }

  function Repeater(r: Chunk, t: nat): Chunk {
    Node(1, Child(r.block, HeightOf(r) + 1, [t], map[], 1), r.key + 1.0, r)
  }

  function Sibling(r: Chunk): Chunk {
    Node(2, Child(r.block, HeightOf(r) + 1, [], map[], 2), r.key + 2.0, r)
  }

  /** A tree whose head repeats `t` right above the root. */
  function RepeatTree(r: Chunk, t: nat): Forest {
    Forest(r, r, Repeater(r, t), map[r := [Repeater(r, t)]], {r}, {r, Repeater(r, t)}, 0)
  }

  lemma SiblingFork(r: Chunk, a: Chunk, b: Chunk)
    requires a.Node? && b.Node? && a.parent == b.parent == r && a != b && HeightOf(a) == HeightOf(b)
    requires WellLinked(a) && WellLinked(b)
    ensures ForkPoint(r, a, b) == r
  {
  }

  lemma RepeatTreeValid(r: Chunk, t: nat)
    requires r.RootChunk? && Linked(r.block)
    ensures Valid(RepeatTree(r, t)) && MayAttach(RepeatTree(r, t), r.block, Sibling(r))
  {
    var f, a := RepeatTree(r, t), Repeater(r, t);
    assert Kids(f, r) == [a] && InTree(f, a);
    assert PickKid([a], r, Sibling(r).block).None?;
  }

  lemma OneStep(r: Chunk, c: Chunk)
    requires c.Node? && c.parent == r && c != r && c.block.Child?
    ensures Path(r, c) == [c] && TxsOf(Path(r, c)) == c.block.txs
  {
    assert Path(r, r) == [];
    assert [c][..0] == [] && TxsOf([]) == [];
  }

  lemma RepeatDiff(r: Chunk, t: nat)
    requires r.RootChunk? && Linked(r.block) && t in TxSet(r.block)
    ensures WellLinked(Repeater(r, t)) && WellLinked(Sibling(r))
    ensures TxDiff(r, Repeater(r, t), Sibling(r)) == TxChange(Minus([], [t]), Minus([t], []))
    ensures t !in Apply(TxSet(Repeater(r, t).block), TxDiff(r, Repeater(r, t), Sibling(r)))
  {
    var a, b := Repeater(r, t), Sibling(r);
    SiblingFork(r, a, b);
    OneStep(r, a);
    OneStep(r, b);
    assert t in [t];
  }

  /** The smallest failing head move: the old head repeats a transaction of the root, its sibling
      becomes the head, and the fold loses the transaction although it stays confirmed. */
  lemma RepeatIsLost(r: Chunk, t: nat, window: nat)
    requires r.RootChunk? && Linked(r.block) && t in TxSet(r.block)
    ensures Valid(RepeatTree(r, t))
    ensures var moved := Attach(RepeatTree(r, t), r.block, Sibling(r), window, false);
            && moved.Attached? && moved.forest.head == Sibling(r) && t in TxSet(Sibling(r).block)
            && t !in Apply(TxSet(Repeater(r, t).block), moved.inserted.txs)
  {
    RepeatTreeValid(r, t);
    RepeatDiff(r, t);
  }

  lemma NoRepeatAbove(p: Chunk, c: Chunk)
    requires WellLinked(c) && Above(p, c) && NoRepeat(c.block)
    ensures forall t :: t in TxsOf(Path(p, c)) ==> t !in TxSet(p.block)
  {
    if p != c {
      NoRepeatAbove(p, c.parent);
      TxsSplit(p, c.parent);
      var q := Path(p, c);
      assert q[..|q| - 1] == Path(p, c.parent);
    }
  }

  lemma HeadFolds(r: Chunk, oldHead: Chunk, newHead: Chunk)
    requires WellLinked(oldHead) && WellLinked(newHead) && Above(r, oldHead) && Above(r, newHead)
    requires NoRepeat(oldHead.block)
    ensures Apply(TxSet(oldHead.block), TxDiff(r, oldHead, newHead)) == TxSet(newHead.block)
  {
    TxDiffFolds(r, oldHead, newHead);
    NoRepeatAbove(ForkPoint(r, oldHead, newHead), oldHead);
  }

  lemma EmptyFolds(s: set<nat>)
    ensures Apply(s, TxChange([], [])) == s
  {
  }

  /** One attach of a branch without repeats reports exactly the change of the canonical set. */
  lemma AttachFolds(f: Forest, parentHash: Block, chunk: Chunk, window: nat, linear: bool)
    requires Valid(f) && Opened(chunk) && NoRepeat(f.head.block)
    ensures match Attach(f, parentHash, chunk, window, linear)
            case Refused => true
            case Attached(g, ins) => Apply(TxSet(f.head.block), ins.txs) == TxSet(g.head.block)
  {
    var r := Attach(f, parentHash, chunk, window, linear);
    EmptyFolds(TxSet(f.head.block));
    if r.Attached? && r.inserted.isHead {
      InTreeFacts(f, chunk.parent);
      InTreeFacts(f, f.head);
      HeadFolds(f.root, f.head, chunk);
    }
  }

  // ------------------------------------------------------------ runs

  datatype TreeStep =
    | DoAttach(parentHash: Block, chunk: Chunk, window: nat, linear: bool)
    | DoAttachSide(parentHash: Block, side: Chunk)
    | DoCommit(job: RollJob)
    | DoEvict(capacity: nat)

  /** What one tree operation may lead to, and what it reports; a refused one changes nothing. */
  ghost predicate Next(f: Forest, step: TreeStep, g: Forest, txs: TxChange) {
    match step
    case DoAttach(ph, chunk, w, linear) =>
      Valid(f) && Opened(chunk) &&
      (match Attach(f, ph, chunk, w, linear)
       case Refused => g == f && txs == TxChange([], [])
       case Attached(h, ins) => g == h && txs == ins.txs)
    case DoAttachSide(ph, chunk) =>
      Opened(chunk) && txs == TxChange([], []) &&
      (match AttachSide(f, ph, chunk)
       case Refused => g == f
       case Attached(h, _) => g == h)
    case DoCommit(job) =>
      txs == TxChange([], []) && g == if ValidRoll(f, job) then CommitRoll(f, job) else f
    case DoEvict(capacity) =>
      txs == TxChange([], []) && Evicted(f, g, capacity)
  }

  lemma NextValid(f: Forest, step: TreeStep, g: Forest, txs: TxChange)
    requires Valid(f) && Next(f, step, g, txs)
    ensures Valid(g)
  {
    match step
    case DoAttach(ph, chunk, w, linear) => AttachValid(f, ph, chunk, w, linear);
    case DoAttachSide(ph, chunk) => if MayAttach(f, ph, chunk) { AddChildValid(f, ph, chunk); }
    case DoCommit(job) => if ValidRoll(f, job) { CommitRollValid(f, job); }
    case DoEvict(capacity) => EvictedKeeps(f, g, capacity);
  }

  /** A run: states, steps and reports line up. */
  ghost predicate Run(states: seq<Forest>, steps: seq<TreeStep>, reports: seq<TxChange>) {
    && |states| == |steps| + 1 && |reports| == |steps|
    && forall i :: 0 <= i < |steps| ==> Next(states[i], steps[i], states[i + 1], reports[i])
  }

  function FoldReports(s: set<nat>, reports: seq<TxChange>): set<nat> {
    if reports == [] then s
    else Apply(FoldReports(s, reports[..|reports| - 1]), reports[|reports| - 1])
  }

  /** Over every run of attaches, side attaches, root commits and evictions whose heads never
      repeat a transaction, folding the reports over the first head's transactions gives the
      transactions of the last head. */
  lemma {:induction false} FoldIsCanonical(states: seq<Forest>, steps: seq<TreeStep>, reports: seq<TxChange>)
    requires Run(states, steps, reports) && Valid(states[0])
    requires forall i :: 0 <= i < |states| ==> NoRepeat(states[i].head.block)
    ensures Valid(states[|steps|])
    ensures FoldReports(TxSet(states[0].head.block), reports) == TxSet(states[|steps|].head.block)
  {
    if steps != [] {
      var n := |steps| - 1;
      FoldIsCanonical(states[..n + 1], steps[..n], reports[..n]);
      var f, g := states[n], states[n + 1];
      NextValid(f, steps[n], g, reports[n]);
      EmptyFolds(TxSet(f.head.block));
      match steps[n]
      case DoAttach(ph, chunk, w, linear) => AttachFolds(f, ph, chunk, w, linear);
      case DoAttachSide(_, _) =>
      case DoCommit(_) =>
      case DoEvict(capacity) => EvictedKeeps(f, g, capacity);
    }
  }
}
