/** The fork tree as it runs: fields changed in place, cursor loops, each method proved
    against its meaning in `ForkTree`. */
module TreeOps {
  import opened Options
  import opened Blocks
  import opened ForkTree
  import opened SideEviction

  // ------------------------------------------------------------ searching

  /** Children of visited chunks are visited or waiting. */
  ghost predicate Covered(f: Forest, visited: set<Chunk>, stack: seq<Chunk>) {
    forall v, k :: v in visited && k in Kids(f, v) ==> k in visited || k in stack
  }

  /** What waits is live, distinct and unvisited, and hangs below what was visited. */
  ghost predicate Waiting(f: Forest, visited: set<Chunk>, stack: seq<Chunk>) {
    && (forall i :: 0 <= i < |stack| ==> InTree(f, stack[i]) && stack[i] !in visited)
    && (forall i, j :: 0 <= i < j < |stack| ==> stack[i] != stack[j])
    && (forall i :: 0 <= i < |stack| ==>
          (stack[i] == f.root && visited == {}) || (stack[i].Node? && stack[i].parent in visited))
    && (forall v :: v in visited && v != f.root ==> v.Node? && v.parent in visited)
    && (f.root in visited || stack == [f.root])
  }

  lemma CoveredStep(f: Forest, visited: set<Chunk>, rest: seq<Chunk>, node: Chunk)
    requires Covered(f, visited, rest + [node])
    ensures Covered(f, visited + {node}, rest + Kids(f, node))
  {
    forall v, k | v in visited + {node} && k in Kids(f, v)
      ensures k in visited + {node} || k in rest + Kids(f, node)
    {
      if v != node && k !in visited {
        assert k in rest + [node];
      }
    }
  }

  lemma WaitingStep(f: Forest, visited: set<Chunk>, rest: seq<Chunk>, node: Chunk)
    requires Valid(f) && Waiting(f, visited, rest + [node])
    ensures Waiting(f, visited + {node}, rest + Kids(f, node))
    ensures node !in visited && InTree(f, node)
  {
    var stack := rest + [node];
    assert stack[|rest|] == node;
    assert forall i :: 0 <= i < |rest| ==> stack[i] == rest[i];
    ExpandFresh(f, node);
    var next := rest + Kids(f, node);
    forall i, j | 0 <= i < j < |next| ensures next[i] != next[j] {
      if i < |rest| && j >= |rest| {
        assert next[j].parent == node;
      }
    }
  }

  /** Children of a live chunk are live, distinct and name it as parent. */
  lemma ExpandFresh(f: Forest, node: Chunk)
    requires Valid(f) && InTree(f, node)
    ensures forall i :: 0 <= i < |Kids(f, node)| ==> var k := Kids(f, node)[i];
              InTree(f, k) && k.Node? && k.parent == node && k != f.root && k != node
    ensures forall i, j :: 0 <= i < j < |Kids(f, node)| ==> Kids(f, node)[i] != Kids(f, node)[j]
  {
    InTreeFacts(f, node);
    forall i | 0 <= i < |Kids(f, node)|
      ensures var k := Kids(f, node)[i]; InTree(f, k) && k.Node? && k.parent == node && k != f.root && k != node
    {
      NoCycle(Kids(f, node)[i], f.root);
    }
  }

  /** A set that holds the root and the children of its members holds the tree. */
  lemma ClosedHoldsTree(f: Forest, s: set<Chunk>, c: Chunk)
    requires f.root in s && Covered(f, s, [])
    requires InTree(f, c)
    ensures c in s
  {
    if c != f.root {
      ClosedHoldsTree(f, s, c.parent);
    }
  }

  /** The state of a search for `hash` that has not hit yet. */
  ghost predicate Searching(f: Forest, hash: Block, visited: set<Chunk>, stack: seq<Chunk>) {
    && Waiting(f, visited, stack) && Covered(f, visited, stack)
    && forall v :: v in visited ==> v.block != hash
  }

  lemma SearchStarts(f: Forest, hash: Block)
    requires Valid(f)
    ensures Searching(f, hash, {}, [f.root])
  {
  }

  lemma SearchStep(f: Forest, hash: Block, visited: set<Chunk>, rest: seq<Chunk>, node: Chunk)
    requires Valid(f) && Searching(f, hash, visited, rest + [node])
    ensures node.block == hash ==> ForkTree.Find(f, hash) == Some(node)
    ensures node.block != hash ==> Searching(f, hash, visited + {node}, rest + Kids(f, node))
    ensures node in AllChunks(f) - visited
  {
    WaitingStep(f, visited, rest, node);
    CoveredStep(f, visited, rest, node);
    InTreeAll(f, node);
    if node.block == hash {
      FindComplete(f, node);
    }
  }

  /** Nothing left to visit and no hit means the tree does not hold the block. */
  lemma SearchEnds(f: Forest, visited: set<Chunk>, hash: Block)
    requires Searching(f, hash, visited, [])
    ensures ForkTree.Find(f, hash) == None
  {
    if ForkTree.Find(f, hash).Some? {
      ClosedHoldsTree(f, visited, ForkTree.Find(f, hash).value);
    }
  }

  // ------------------------------------------------------------ walking up

  /** `c` is live, or is an executed chunk about to join below a live parent. */
  ghost predicate Hangs(f: Forest, c: Chunk) {
    InTree(f, c) || (c.Node? && c !in f.disk && LinkOk(c) && InTree(f, c.parent))
  }

  lemma HangsFacts(f: Forest, c: Chunk)
    requires Valid(f) && Hangs(f, c)
    ensures WellLinked(c) && Above(f.root, c) && HeightOf(f.root) <= HeightOf(c)
    ensures c in f.disk <==> c == f.root
    ensures c != f.root ==>
              ParentOf(f, c) == Some(c.parent) && Hangs(f, c.parent) && HeightOf(c.parent) == HeightOf(c) - 1
  {
    if InTree(f, c) {
      InTreeFacts(f, c);
    } else {
      InTreeFacts(f, c.parent);
    }
    AboveFacts(f.root, c);
  }

  function Reverse<T>(s: seq<T>): seq<T> {
    if s == [] then [] else [s[|s| - 1]] + Reverse(s[..|s| - 1])
  }

  lemma ReverseAt<T>(s: seq<T>, i: nat)
    requires i < |s|
    ensures |Reverse(s)| == |s| && Reverse(s)[i] == s[|s| - 1 - i]
  {
    if |s| > 1 {
      ReverseAt(s[..|s| - 1], if i == 0 then 0 else i - 1);
    }
  }

  lemma ReverseSnoc<T>(s: seq<T>, c: T)
    ensures Reverse(s + [c]) == [c] + Reverse(s)
  {
    assert (s + [c])[..|s|] == s;
  }

  /** One step up the branch of `top`. */
  lemma StepUp(f: Forest, cursor: Chunk, top: Chunk, h: nat)
    requires Valid(f) && Hangs(f, cursor) && Above(cursor, top) && HeightOf(f.root) <= h < HeightOf(cursor)
    ensures ParentOf(f, cursor) == Some(cursor.parent) && Hangs(f, cursor.parent) && Above(cursor.parent, top)
    ensures h <= HeightOf(cursor.parent) < HeightOf(cursor)
    ensures Path(cursor.parent, top) == [cursor] + Path(cursor, top)
  {
    HangsFacts(f, cursor);
    AboveTransitive(cursor.parent, cursor, top);
    assert Path(cursor.parent, cursor) == [cursor];
  }

  lemma ChunkAtIs(a: Chunk, b: Chunk, c: Chunk)
    requires WellLinked(c) && Above(a, b) && Above(b, c) && Above(a, c)
    requires HeightOf(a) <= HeightOf(b) <= HeightOf(c)
    ensures ChunkAt(a, c, HeightOf(b)) == b
  {
    AboveFacts(b, c);
    if b != c {
      AboveTransitive(a, b, c.parent);
      AboveFacts(b, c.parent);
      ChunkAtIs(a, b, c.parent);
    }
  }

  /** Two ancestors of one chunk at one height are the same chunk. */
  lemma SameHeight(a: Chunk, b: Chunk, c: Chunk)
    requires WellLinked(c) && Above(a, c) && Above(b, c) && HeightOf(a) == HeightOf(b)
    ensures a == b
  {
    AboveComparable(a, b, c);
    AboveFacts(a, c);
    AboveFacts(b, c);
    if Above(a, b) { AboveFacts(a, b); } else { AboveFacts(b, a); }
  }

  /** Where the two walks of `plan_roll_from` end tells whether the plan exists. */
  lemma PlanMeets(f: Forest, from: Chunk, newHeight: nat, newRoot: Chunk, cursor: Chunk)
    requires Valid(f) && Hangs(f, from) && WellLinked(from) && newHeight > HeightOf(f.sched)
    requires Above(newRoot, from) && Above(cursor, newRoot)
    requires HeightOf(newRoot) == newHeight || (newRoot == from && HeightOf(from) <= newHeight)
    requires HeightOf(cursor) == HeightOf(f.sched) || (cursor == newRoot && HeightOf(newRoot) <= HeightOf(f.sched))
    ensures PlanRoll(f, from, newHeight)
         == if cursor == f.sched then Some(RollJob(f.sched.block, HeightOf(f.sched), newRoot, Path(cursor, newRoot)))
            else None
  {
    AboveFacts(newRoot, from);
    AboveTransitive(cursor, newRoot, from);
    AboveFacts(cursor, from);
    if Above(f.sched, from) {
      AboveFacts(f.sched, from);
      SameHeight(f.sched, cursor, from);
    }
    if cursor == f.sched {
      AboveFacts(cursor, newRoot);
      ChunkAtIs(f.sched, newRoot, from);
    }
  }

  // ------------------------------------------------------------ validating a roll

  /** The first `i` links of `chain` are the branch from the root to `prev`. */
  ghost predicate LinksTo(f: Forest, chain: seq<Chunk>, i: nat, prev: Chunk) {
    && i <= |chain| && Above(f.root, prev) && WellLinked(prev)
    && HeightOf(prev) == HeightOf(f.root) + i
    && Path(f.root, prev) == chain[..i]
  }

  lemma LinkNext(f: Forest, chain: seq<Chunk>, i: nat, prev: Chunk)
    requires Valid(f) && LinksTo(f, chain, i, prev) && i < |chain|
    requires HeightOf(chain[i]) == HeightOf(prev) + 1 && ParentOf(f, chain[i]) == Some(prev)
    requires LinkOk(chain[i])
    ensures LinksTo(f, chain, i + 1, chain[i])
  {
    var c := chain[i];
    AboveTransitive(f.root, prev, c);
    assert Path(prev, c) == [c];
    assert chain[..i + 1] == chain[..i] + [c];
  }

  /** A valid job passes every check of the loop. */
  lemma ValidRollLinks(f: Forest, job: RollJob, i: nat)
    requires Valid(f) && ValidRoll(f, job)
    ensures job.chain != [] && HeightOf(job.newRoot) >= HeightOf(f.root)
    ensures |job.chain| == HeightOf(job.newRoot) - HeightOf(f.root)
    ensures i < |job.chain| ==>
              var prev := if i == 0 then f.root else job.chain[i - 1];
              && HeightOf(job.chain[i]) == HeightOf(prev) + 1 && ParentOf(f, job.chain[i]) == Some(prev)
              && LinkOk(job.chain[i])
    ensures job.chain[|job.chain| - 1] == job.newRoot
  {
    InTreeFacts(f, f.head);
    InTreeAbove(f, job.newRoot, f.head);
    InTreeFacts(f, job.newRoot);
    AboveFacts(f.root, job.newRoot);
    if i < |job.chain| {
      PathFacts(f.root, job.newRoot, i);
      InTreeAbove(f, job.chain[i], job.newRoot);
      InTreeFacts(f, job.chain[i]);
      if i > 0 { PathFacts(f.root, job.newRoot, i - 1); }
    } else {
      PathFacts(f.root, job.newRoot, 0);
    }
  }

  /** The whole chain links and ends at the new root: only the head path remains to check. */
  lemma LinkedChainValid(f: Forest, job: RollJob)
    requires Valid(f) && job.chain != [] && LinksTo(f, job.chain, |job.chain|, job.newRoot)
    requires job.expectedHash == f.root.block && job.expectedHeight == HeightOf(f.root)
    ensures ValidRoll(f, job) <==> Above(job.newRoot, f.head)
  {
    assert job.chain[..|job.chain|] == job.chain;
  }

  /** The height at which a walk of `depth` blocks back from the head stops. */
  function BackLimit(f: Forest, depth: nat): int {
    if HeightOf(f.head) - depth >= HeightOf(f.root) then HeightOf(f.head) - depth else HeightOf(f.root) - 1
  }

  lemma TailEmpty(b: Block, lo: int)
    requires Height(b) <= lo
    ensures Tail(b, lo) == []
  {
  }

  /** `out` is what lies on the branch of the head above `cursor`, newest first. */
  ghost predicate BackOut(f: Forest, cursor: Chunk, lo: int, out: seq<(nat, Block)>) {
    Tail(f.head.block, lo) == Tail(cursor.block, lo) + Reverse(out)
  }

  lemma ShiftReverse<T>(whole: seq<T>, below: seq<T>, x: T, out: seq<T>)
    requires whole == (below + [x]) + Reverse(out)
    ensures whole == below + Reverse(out + [x])
  {
    ReverseSnoc(out, x);
  }

  lemma BackStep(f: Forest, cursor: Chunk, lo: int, out: seq<(nat, Block)>)
    requires Valid(f) && InTree(f, cursor) && HeightOf(f.root) - 1 <= lo < HeightOf(cursor)
    requires BackOut(f, cursor, lo, out)
    ensures cursor == f.root ==> Tail(f.head.block, lo) == Reverse(out + [(HeightOf(cursor), cursor.block)])
    ensures cursor != f.root ==> BackOut(f, cursor.parent, lo, out + [(HeightOf(cursor), cursor.block)])
  {
    InTreeFacts(f, cursor);
    var x := (HeightOf(cursor), cursor.block);
    if cursor == f.root {
      if cursor.block.Child? {
        TailEmpty(cursor.block.prev, lo);
      }
      ShiftReverse(Tail(f.head.block, lo), [], x, out);
    } else {
      ShiftReverse(Tail(f.head.block, lo), Tail(cursor.parent.block, lo), x, out);
    }
  }

  // ------------------------------------------------------------ side eviction

  /** The path from the root to the head, oldest first. */
  ghost function Canonical(f: Forest): seq<Chunk>
    requires Above(f.root, f.head)
  {
    [f.root] + Path(f.root, f.head)
  }

  /** The path holds exactly the live ancestors of the head, each followed by its canonical child. */
  lemma CanonicalAt(f: Forest, i: nat)
    requires Valid(f) && Above(f.root, f.head) && i < |Canonical(f)|
    ensures var c := Canonical(f)[i];
            && InTree(f, c) && Above(c, f.head)
            && HeightOf(c) == HeightOf(f.root) + i
            && (i + 1 < |Canonical(f)| ==>
                  var d := Canonical(f)[i + 1]; d.Node? && d.parent == c && Above(d, f.head))
            && (i + 1 == |Canonical(f)| ==> c == f.head)
    ensures |Canonical(f)| == HeightOf(f.head) - HeightOf(f.root) + 1
  {
    InTreeFacts(f, f.head);
    AboveFacts(f.root, f.head);
    if i > 0 {
      PathFacts(f.root, f.head, i - 1);
      InTreeAbove(f, Canonical(f)[i], f.head);
    }
    if i + 1 < |Canonical(f)| {
      PathFacts(f.root, f.head, i);
    }
  }

  lemma CanonicalHas(f: Forest, c: Chunk)
    requires Valid(f) && Above(f.root, f.head) && Above(f.root, c) && Above(c, f.head)
    ensures HeightOf(f.root) <= HeightOf(c)
    ensures HeightOf(c) - HeightOf(f.root) < |Canonical(f)|
    ensures Canonical(f)[HeightOf(c) - HeightOf(f.root)] == c
  {
    InTreeFacts(f, f.head);
    AboveFacts(c, f.head);
    AboveFacts(f.root, c);
    AboveFacts(f.root, f.head);
    var i := HeightOf(c) - HeightOf(f.root);
    CanonicalAt(f, i);
    SameHeight(c, Canonical(f)[i], f.head);
  }

  /** A child of the path is a side root exactly when it is not the next chunk of the path. */
  lemma SideRootAt(f: Forest, i: nat, c: Chunk)
    requires Valid(f) && Above(f.root, f.head) && i < |Canonical(f)| && c in Kids(f, Canonical(f)[i])
    ensures IsSideRoot(f, c) <==> (i + 1 == |Canonical(f)| || c.block != Canonical(f)[i + 1].block)
    ensures c.Node? && c.parent == Canonical(f)[i]
  {
    var p := Canonical(f)[i];
    CanonicalAt(f, i);
    assert InTree(f, c);
    InTreeFacts(f, c);
    InTreeFacts(f, f.head);
    if i + 1 < |Canonical(f)| {
      CanonicalAt(f, i + 1);
      if c.block == Canonical(f)[i + 1].block {
        InTreeUnique(f, c, Canonical(f)[i + 1]);
      } else if Above(c, f.head) {
        SameHeight(c, Canonical(f)[i + 1], f.head);
      }
    } else if Above(c, f.head) {
      AboveFacts(c, f.head);
    }
  }

  /** `s` lists, each once, the side roots hanging from the first `i` chunks of the path. */
  ghost predicate SideUpTo(f: Forest, i: nat, s: seq<Chunk>)
    requires Above(f.root, f.head)
  {
    && i <= |Canonical(f)| && AllNodes(s)
    && (forall a, b :: 0 <= a < b < |s| ==> s[a] != s[b])
    && (forall c :: c in s <==> c.Node? && c.parent in Canonical(f)[..i] && IsSideRoot(f, c))
  }

  /** The side roots among the first `k` children of the path's `i`-th chunk. */
  function SideKids(kids: seq<Chunk>, next: Option<Block>): (r: seq<Chunk>)
    ensures forall c :: c in r <==> c in kids && Some(c.block) != next
    ensures (forall a, b :: 0 <= a < b < |kids| ==> kids[a] != kids[b]) ==>
            (forall a, b :: 0 <= a < b < |r| ==> r[a] != r[b])
    ensures forall a :: 0 <= a < |r| ==> r[a] in kids
  {
    if kids == [] then []
    else SideKids(kids[..|kids| - 1], next)
         + (if Some(kids[|kids| - 1].block) != next then [kids[|kids| - 1]] else [])
  }

  ghost function NextHash(f: Forest, i: nat): Option<Block>
    requires Above(f.root, f.head)
  {
    if i + 1 < |Canonical(f)| then Some(Canonical(f)[i + 1].block) else None
  }

  lemma SideStep(f: Forest, i: nat, s: seq<Chunk>)
    requires Valid(f) && Above(f.root, f.head) && i < |Canonical(f)| && SideUpTo(f, i, s)
    ensures SideUpTo(f, i + 1, s + SideKids(Kids(f, Canonical(f)[i]), NextHash(f, i)))
  {
    var p := Canonical(f)[i];
    var more := SideKids(Kids(f, p), NextHash(f, i));
    SideMore(f, i);
    SideApart(f, i, s);
    assert Canonical(f)[..i + 1] == Canonical(f)[..i] + [p];
    forall a, b | 0 <= a < b < |s + more| ensures (s + more)[a] != (s + more)[b] {
      if a < |s| && |s| <= b { assert (s + more)[b] in more; }
    }
  }

  /** The new side roots are exactly those hanging from the `i`-th chunk of the path. */
  lemma SideMore(f: Forest, i: nat)
    requires Valid(f) && Above(f.root, f.head) && i < |Canonical(f)|
    ensures var more := SideKids(Kids(f, Canonical(f)[i]), NextHash(f, i));
            && AllNodes(more)
            && (forall a, b :: 0 <= a < b < |more| ==> more[a] != more[b])
            && (forall c :: c in more <==> c.Node? && c.parent == Canonical(f)[i] && IsSideRoot(f, c))
  {
    var p := Canonical(f)[i];
    CanonicalAt(f, i);
    ExpandFresh(f, p);
    var more := SideKids(Kids(f, p), NextHash(f, i));
    forall c | c in more ensures c.Node? && c.parent == p && IsSideRoot(f, c) {
      SideRootAt(f, i, c);
    }
    forall c: Chunk | c.Node? && c.parent == p && IsSideRoot(f, c) ensures c in more {
      InTreeFacts(f, f.head);
      SideRootAt(f, i, c);
    }
  }

  lemma SideApart(f: Forest, i: nat, s: seq<Chunk>)
    requires Valid(f) && Above(f.root, f.head) && i < |Canonical(f)| && SideUpTo(f, i, s)
    ensures forall a :: 0 <= a < |s| ==> s[a].parent != Canonical(f)[i]
  {
    forall a | 0 <= a < |s| ensures s[a].parent != Canonical(f)[i] {
      assert s[a] in s;
      CanonicalDistinct(f, i, s[a].parent);
    }
  }

  lemma CanonicalDistinct(f: Forest, i: nat, c: Chunk)
    requires Valid(f) && Above(f.root, f.head) && i < |Canonical(f)| && c in Canonical(f)[..i]
    ensures c != Canonical(f)[i]
  {
    var j :| 0 <= j < i && Canonical(f)[j] == c;
    CanonicalAt(f, i);
    CanonicalAt(f, j);
  }

  lemma SideDone(f: Forest, s: seq<Chunk>)
    requires Valid(f) && Above(f.root, f.head) && SideUpTo(f, |Canonical(f)|, s)
    ensures ListsSideRoots(f, s)
  {
    assert Canonical(f)[..|Canonical(f)|] == Canonical(f);
    forall c | IsSideRoot(f, c) ensures c in s {
      InTreeFacts(f, f.head);
      InTreeFacts(f, c);
      assert InTree(f, c.parent);
      InTreeFacts(f, c.parent);
      CanonicalHas(f, c.parent);
    }
  }

  /** A permutation of the side roots still lists them. */
  lemma ListsPermuted(f: Forest, s: seq<Chunk>, r: seq<Chunk>)
    requires ListsSideRoots(f, s) && AllNodes(s) && multiset(r) == multiset(s)
    ensures ListsSideRoots(f, r) && AllNodes(r)
  {
    forall c ensures c in r <==> c in s {
      assert c in multiset(r) <==> c in multiset(s);
    }
    forall i, j | 0 <= i < j < |r| ensures r[i] != r[j] {
      DistinctCount(s, r[i]);
      if r[i] == r[j] { TwiceCount(r, i, j); }
    }
    forall i | 0 <= i < |r| ensures r[i].Node? {
      assert r[i] in s;
    }
  }

  lemma DistinctCount(s: seq<Chunk>, c: Chunk)
    requires forall a, b :: 0 <= a < b < |s| ==> s[a] != s[b]
    ensures multiset(s)[c] <= 1
  {
    if s != [] {
      var n := |s| - 1;
      assert s == s[..n] + [s[n]];
      DistinctCount(s[..n], c);
      assert c !in s[..n] ==> multiset(s[..n])[c] == 0;
    }
  }

  lemma TwiceCount(r: seq<Chunk>, i: nat, j: nat)
    requires i < j < |r| && r[i] == r[j]
    ensures multiset(r)[r[i]] >= 2
  {
    assert r == r[..j] + r[j..];
    assert r[i] in r[..j] && r[i] in r[j..];
  }

  /** Insert into an ordered list, after equal entries: one step of a stable sort. */
  method InsertOrdered(s: seq<Chunk>, c: Chunk) returns (r: seq<Chunk>)
    requires Ordered(s)
    ensures Ordered(r) && multiset(r) == multiset(s) + multiset{c}
  {
    var k := |s|;
    while k > 0 && !Weaker(s[k - 1], c)
      invariant 0 <= k <= |s|
      invariant forall i :: k <= i < |s| ==> Weaker(c, s[i])
    {
      k := k - 1;
    }
    r := s[..k] + [c] + s[k..];
    assert s == s[..k] + s[k..];
    InsertedOrdered(s, c, k);
  }

  lemma InsertedOrdered(s: seq<Chunk>, c: Chunk, k: nat)
    requires Ordered(s) && k <= |s|
    requires forall i :: k <= i < |s| ==> Weaker(c, s[i])
    requires k > 0 ==> Weaker(s[k - 1], c)
    ensures Ordered(s[..k] + [c] + s[k..])
  {
    forall i | 0 <= i < k ensures Weaker(s[i], c) {
      if i < k - 1 { assert Weaker(s[i], s[k - 1]); }
    }
  }

  method SortWeakest(s: seq<Chunk>) returns (r: seq<Chunk>)
    ensures Ordered(r) && multiset(r) == multiset(s)
  {
    r := [];
    for i := 0 to |s|
      invariant Ordered(r) && multiset(r) == multiset(s[..i])
    {
      assert s[..i + 1] == s[..i] + [s[i]];
      r := InsertOrdered(r, s[i]);
    }
    assert s[..|s|] == s;
  }

  /** Live chunks already visited, and how many of them are off the path. */
  ghost predicate Counting(f: Forest, visited: set<Chunk>, stack: seq<Chunk>, n: nat) {
    && Waiting(f, visited, stack) && Covered(f, visited, stack)
    && (forall v :: v in visited ==> InTree(f, v))
    && n == |OffPath(f, visited)|
  }

  ghost function OffPath(f: Forest, s: set<Chunk>): set<Chunk> {
    set c | c in s && !Above(c, f.head)
  }

  lemma CountStep(f: Forest, visited: set<Chunk>, rest: seq<Chunk>, node: Chunk, n: nat)
    requires Valid(f) && Counting(f, visited, rest + [node], n)
    ensures Counting(f, visited + {node}, rest + Kids(f, node), if Above(node, f.head) then n else n + 1)
    ensures node in AllChunks(f) - visited && InTree(f, node)
  {
    WaitingStep(f, visited, rest, node);
    CoveredStep(f, visited, rest, node);
    InTreeAll(f, node);
    OffPathStep(f, visited, node);
  }

  lemma CountStarts(f: Forest)
    requires Valid(f)
    ensures Counting(f, {}, [f.root], 0)
  {
    assert OffPath(f, {}) == {};
  }

  lemma CountRound(f: Forest, visited: set<Chunk>, rest: seq<Chunk>, node: Chunk, n: nat, canonical: set<Block>)
    requires Valid(f) && Counting(f, visited, rest + [node], n) && MarksPath(f, canonical)
    ensures Counting(f, visited + {node}, rest + Kids(f, node), if node.block in canonical then n else n + 1)
    ensures node in AllChunks(f) - visited
  {
    CountStep(f, visited, rest, node, n);
  }

  lemma OffPathStep(f: Forest, visited: set<Chunk>, node: Chunk)
    requires node !in visited
    ensures |OffPath(f, visited + {node})| == |OffPath(f, visited)| + (if Above(node, f.head) then 0 else 1)
  {
    assert OffPath(f, visited + {node}) == OffPath(f, visited) + (if Above(node, f.head) then {} else {node});
  }

  lemma CountEnds(f: Forest, visited: set<Chunk>, n: nat)
    requires Counting(f, visited, [], n)
    ensures n == |SideNodes(f)|
  {
    forall c | InTree(f, c) ensures c in visited {
      ClosedHoldsTree(f, visited, c);
    }
    forall c | c in visited ensures c in AllChunks(f) {
      InTreeAll(f, c);
    }
    assert OffPath(f, visited) == SideNodes(f);
  }

  /** For a live chunk, being on the path is a matter of its hash. */
  lemma OnPathByHash(f: Forest, c: Chunk)
    requires Valid(f) && InTree(f, c) && Above(f.root, f.head)
    ensures (exists x :: x in Canonical(f) && x.block == c.block) <==> Above(c, f.head)
  {
    InTreeFacts(f, c);
    if Above(c, f.head) {
      CanonicalHas(f, c);
    }
    if x :| x in Canonical(f) && x.block == c.block {
      var i :| 0 <= i < |Canonical(f)| && Canonical(f)[i] == x;
      CanonicalAt(f, i);
      InTreeUnique(f, x, c);
    }
  }

  /** The first `k` branches are gone and each was still one too many. */
  ghost predicate Evicting(f: Forest, g: Forest, capacity: nat, order: seq<Chunk>, k: nat) {
    && AllNodes(order) && ListsSideRoots(f, order) && Ordered(order) && k <= |order|
    && Valid(f) && Valid(g) && g == RemoveAll(f, order[..k]) && Above(g.root, g.head)
    && forall m :: 0 <= m < k ==> SideLeft(f, order, m) > capacity
  }

  lemma EvictStarts(f: Forest, order: seq<Chunk>)
    ensures order[..0] == [] && RemoveAll(f, []) == f
  {
  }

  /** While side chunks are left there is a next branch to cut. */
  lemma MoreToCut(f: Forest, g: Forest, order: seq<Chunk>, k: nat)
    requires Valid(f) && AllNodes(order) && ListsSideRoots(f, order) && k <= |order|
    requires g == RemoveAll(f, order[..k]) && |SideNodes(g)| > 0
    ensures k < |order|
  {
    CutAllLeavesNone(f, order);
    assert order[..|order|] == order;
  }

  /** ... and it is live, off the disk, in its parent's list. */
  lemma EvictNext(f: Forest, g: Forest, order: seq<Chunk>, k: nat)
    requires Valid(f) && k < |order| && Cuts(f, order[..k]) && Cuts(f, order[..k + 1]) && g == RemoveAll(f, order[..k])
    ensures InTree(g, order[k]) && order[k].Node? && order[k] !in f.disk && order[k] != g.root
  {
    var c, s := order[k], order[..k + 1];
    assert s[k] == c && s[..k] == order[..k];
    assert IsSideRoot(f, c);
    CutsSpare(f, s);
    RemoveAllLive(f, order[..k], c);
    InTreeFacts(f, f.head);
    InTreeFacts(f, c);
  }

  /** Cutting the next branch is removing one more prefix element. */
  lemma EvictCut(f: Forest, g: Forest, order: seq<Chunk>, k: nat)
    requires Valid(f) && AllNodes(order) && ListsSideRoots(f, order) && k < |order| && g == RemoveAll(f, order[..k])
    ensures InTree(g, order[k]) && order[k].Node? && order[k] !in f.disk && order[k] != g.root
    ensures RemoveKid(g, order[k]) == RemoveAll(f, order[..k + 1]) && Valid(RemoveKid(g, order[k]))
  {
    PrefixCuts(f, order, k);
    PrefixCuts(f, order, k + 1);
    EvictNext(f, g, order, k);
    assert order[..k + 1][..k] == order[..k];
    RemoveAllValid(f, order[..k + 1]);
  }

  lemma EvictStep(f: Forest, g: Forest, capacity: nat, order: seq<Chunk>, k: nat)
    requires Evicting(f, g, capacity, order, k) && |SideNodes(g)| > capacity
    ensures k < |order| && ParentOf(g, order[k]) == Some(order[k].parent) && order[k] in Kids(g, order[k].parent)
    ensures Evicting(f, RemoveKid(g, order[k]), capacity, order, k + 1)
  {
    MoreToCut(f, g, order, k);
    EvictCut(f, g, order, k);
    assert SideLeft(f, order, k) > capacity;
  }

  lemma EvictDone(f: Forest, g: Forest, capacity: nat, order: seq<Chunk>, k: nat)
    requires Evicting(f, g, capacity, order, k) && |SideNodes(g)| <= capacity
    ensures Valid(g) && Evicted(f, g, capacity)
  {
    assert EvictedBy(f, g, capacity, order, k);
  }

  /** What one round leaves ready for the next. */
  lemma EvictRound(f: Forest, g: Forest, capacity: nat, order: seq<Chunk>, k: nat, canonical: set<Block>)
    requires Evicting(f, g, capacity, order, k) && |SideNodes(g)| > capacity && MarksPath(f, canonical)
    ensures k < |order| && order[k].Node?
    ensures var g' := RemoveKid(g, order[k]);
            Evicting(f, g', capacity, order, k + 1) && MarksPath(g', canonical) && Valid(g') && Above(g'.root, g'.head)
  {
    EvictStep(f, g, capacity, order, k);
    CanonicalSetStays(f, order, k + 1, canonical);
  }

  /** Among the live chunks, `canonical` holds exactly the hashes of the head's path. */
  ghost predicate MarksPath(f: Forest, canonical: set<Block>) {
    forall c :: InTree(f, c) ==> (c.block in canonical <==> Above(c, f.head))
  }

  lemma CanonicalSet(f: Forest, canonical: set<Block>)
    requires Valid(f) && Above(f.root, f.head)
    requires canonical == set c | c in Canonical(f) :: c.block
    ensures MarksPath(f, canonical)
  {
    forall c | InTree(f, c) ensures c.block in canonical <==> Above(c, f.head) {
      OnPathByHash(f, c);
    }
  }

  lemma CanonicalSetStays(f: Forest, order: seq<Chunk>, k: nat, canonical: set<Block>)
    requires Valid(f) && AllNodes(order) && ListsSideRoots(f, order) && k <= |order| && MarksPath(f, canonical)
    ensures MarksPath(RemoveAll(f, order[..k]), canonical)
  {
    PrefixCuts(f, order, k);
    var g := RemoveAll(f, order[..k]);
    forall c | InTree(g, c) ensures c.block in canonical <==> Above(c, g.head) {
      RemoveAllLive(f, order[..k], c);
    }
  }

  // ------------------------------------------------------------ the transaction walk

  /** Both cursors are on their branches, the lists hold what was passed, newest first, and
      the fork point is still ahead. */
  ghost predicate Lifting(f: Forest, chunk: Chunk, a: Chunk, b: Chunk, olds: seq<Chunk>, news: seq<Chunk>) {
    && Hangs(f, a) && Hangs(f, b) && Above(a, f.head) && Above(b, chunk)
    && WellLinked(f.head) && WellLinked(chunk) && Above(f.root, f.head) && Above(f.root, chunk)
    && WellLinked(a) && WellLinked(b) && Above(f.root, a) && Above(f.root, b)
    && Reverse(olds) == Path(a, f.head) && Reverse(news) == Path(b, chunk)
    && ForkPoint(f.root, f.head, chunk) == ForkPoint(f.root, a, b)
  }

  /** One cursor step on a branch: the parent is there and the passed list grows by one. */
  lemma LiftOne(f: Forest, top: Chunk, c: Chunk, passed: seq<Chunk>)
    requires Valid(f) && Hangs(f, c) && Above(c, top) && HeightOf(f.root) < HeightOf(c)
    requires Reverse(passed) == Path(c, top)
    ensures ParentOf(f, c) == Some(c.parent) && Hangs(f, c.parent) && Above(c.parent, top)
    ensures WellLinked(c.parent) && Above(f.root, c.parent) && HeightOf(c.parent) == HeightOf(c) - 1
    ensures Reverse(passed + [c]) == Path(c.parent, top)
  {
    HangsFacts(f, c);
    StepUp(f, c, top, HeightOf(f.root));
    HangsFacts(f, c.parent);
    ReverseSnoc(passed, c);
  }

  lemma LiftOld(f: Forest, chunk: Chunk, a: Chunk, b: Chunk, olds: seq<Chunk>, news: seq<Chunk>)
    requires Valid(f) && Lifting(f, chunk, a, b, olds, news) && HeightOf(a) > HeightOf(b)
    ensures a.Node? && ParentOf(f, a) == Some(a.parent) && Lifting(f, chunk, a.parent, b, olds + [a], news)
    ensures HeightOf(a.parent) == HeightOf(a) - 1
  {
    HangsFacts(f, b);
    LiftOne(f, f.head, a, olds);
  }

  lemma LiftNew(f: Forest, chunk: Chunk, a: Chunk, b: Chunk, olds: seq<Chunk>, news: seq<Chunk>)
    requires Valid(f) && Lifting(f, chunk, a, b, olds, news) && HeightOf(b) > HeightOf(a)
    ensures b.Node? && ParentOf(f, b) == Some(b.parent) && Lifting(f, chunk, a, b.parent, olds, news + [b])
    ensures HeightOf(b.parent) == HeightOf(b) - 1
  {
    HangsFacts(f, a);
    LiftOne(f, chunk, b, news);
  }

  lemma LiftBoth(f: Forest, chunk: Chunk, a: Chunk, b: Chunk, olds: seq<Chunk>, news: seq<Chunk>)
    requires Valid(f) && Lifting(f, chunk, a, b, olds, news) && HeightOf(a) == HeightOf(b) && a != b
    ensures a.Node? && b.Node? && ParentOf(f, a) == Some(a.parent) && ParentOf(f, b) == Some(b.parent)
    ensures Lifting(f, chunk, a.parent, b.parent, olds + [a], news + [b])
    ensures HeightOf(a.parent) == HeightOf(b.parent) == HeightOf(a) - 1
  {
    AboveFacts(f.root, a);
    AboveFacts(f.root, b);
    LiftOne(f, f.head, a, olds);
    LiftOne(f, chunk, b, news);
  }

  /** `blocks` is the branch of `b` from height `lo` up, oldest first. */
  ghost predicate LinesUp(blocks: seq<Block>, b: Block, lo: nat) {
    && Linked(b) && lo <= Height(b) && |blocks| == Height(b) - lo + 1
    && forall i :: 0 <= i < |blocks| ==> blocks[i] == AncestorAt(b, lo + i)
  }

  ghost predicate LinesDown(blocks: seq<Block>, b: Block) {
    && Linked(b) && |blocks| <= Height(b) + 1
    && forall i :: 0 <= i < |blocks| ==> blocks[i] == AncestorAt(b, Height(b) - i)
  }

  /** `branch_blocks` has listed everything above `cursor`. */
  ghost predicate Listing(f: Forest, cursor: Chunk, b: Block, blocks: seq<Block>) {
    InTree(f, cursor) && AncEq(cursor.block, b) && LinesDown(blocks, b) && |blocks| == Height(b) - HeightOf(cursor)
  }

  lemma ListStep(f: Forest, cursor: Chunk, b: Block, blocks: seq<Block>)
    requires Valid(f) && Listing(f, cursor, b, blocks)
    ensures HeightOf(f.root) <= HeightOf(cursor) <= Height(b) && LinesDown(blocks + [cursor.block], b)
    ensures cursor != f.root ==>
              && ParentOf(f, cursor) == Some(cursor.parent) && HeightOf(cursor.parent) < HeightOf(cursor)
              && Listing(f, cursor.parent, b, blocks + [cursor.block])
  {
    InTreeFacts(f, cursor);
    AncEqHeight(cursor.block, b);
    if cursor != f.root {
      InTreeFacts(f, cursor.parent);
      AncEqTransitive(cursor.parent.block, cursor.block, b);
    }
  }

  lemma ReversedLines(blocks: seq<Block>, b: Block, lo: nat)
    requires LinesDown(blocks, b) && lo <= Height(b) && |blocks| == Height(b) - lo + 1
    ensures LinesUp(Reverse(blocks), b, lo)
  {
    ReverseAt(blocks, 0);
    forall i | 0 <= i < |blocks| ensures Reverse(blocks)[i] == AncestorAt(b, lo + i) {
      ReverseAt(blocks, i);
    }
  }

  class Tree {
    var root: Chunk
    var sched: Chunk
    var head: Chunk
    var kids: map<Chunk, seq<Chunk>>
    var disk: set<Chunk>
    var frozen: set<Chunk>
    var epoch: nat

    function Abs(): Forest
      reads this
    {
      Forest(root, sched, head, kids, disk, frozen, epoch)
    }

    /** A tree of one disk-backed root. */
    constructor (uid: nat, block: Block, key: real)
      requires Linked(block)
      ensures Valid(Abs()) && InTree(Abs(), sched)
      ensures root == sched == head == RootChunk(uid, block, key) && kids == map[] && epoch == 0
    {
      var r := RootChunk(uid, block, key);
      root, sched, head, kids, disk, frozen, epoch := r, r, r, map[], {r}, {r}, 0;
    }

    /** Depth first from the root, the head checked first: the answer is the one a search
        along the ancestry of the hash gives, so the shortcut changes nothing. */
    method Find(hash: Block) returns (r: Option<Chunk>)
      requires Valid(Abs())
      ensures r == ForkTree.Find(Abs(), hash)
    {
      ghost var f := Abs();
      if head.block == hash {
        FindComplete(f, head);
        return Some(head);
      }
      var stack := [root];
      ghost var visited: set<Chunk> := {};
      SearchStarts(f, hash);
      while stack != []
        invariant Searching(f, hash, visited, stack)
        decreases AllChunks(f) - visited
      {
        var node := stack[|stack| - 1];
        assert stack == stack[..|stack| - 1] + [node];
        stack := stack[..|stack| - 1];
        SearchStep(f, hash, visited, stack, node);
        if node.block == hash {
          return Some(node);
        }
        stack := stack + Kids(Abs(), node);
        visited := visited + {node};
      }
      SearchEnds(f, visited, hash);
      r := None;
    }

    /** Follow parents from `from` until the height is at most `h`. At or above the root's
        height a parent is always there, so the broken-branch error cannot arise. */
    method WalkTo(from: Chunk, h: nat) returns (r: Chunk)
      requires Valid(Abs()) && Hangs(Abs(), from) && HeightOf(root) <= h
      ensures Hangs(Abs(), r) && Above(r, from)
      ensures HeightOf(r) == h || (r == from && HeightOf(from) <= h)
    {
      ghost var f := Abs();
      var cursor := from;
      while HeightOf(cursor) > h
        invariant Hangs(f, cursor) && Above(cursor, from)
        invariant HeightOf(cursor) >= h || cursor == from
        decreases HeightOf(cursor)
      {
        StepUp(f, cursor, from, h);
        cursor := ParentOf(Abs(), cursor).value;
      }
      r := cursor;
    }

    /** Collect the branch from `from` down to just above height `h`, newest first. */
    method Collect(from: Chunk, h: nat) returns (cursor: Chunk, chain: seq<Chunk>)
      requires Valid(Abs()) && Hangs(Abs(), from) && HeightOf(root) <= h
      ensures Hangs(Abs(), cursor) && Above(cursor, from)
      ensures HeightOf(cursor) == h || (cursor == from && HeightOf(from) <= h)
      ensures Reverse(chain) == Path(cursor, from)
    {
      ghost var f := Abs();
      cursor := from;
      chain := [];
      while HeightOf(cursor) > h
        invariant Hangs(f, cursor) && Above(cursor, from)
        invariant HeightOf(cursor) >= h || cursor == from
        invariant Reverse(chain) == Path(cursor, from)
        decreases HeightOf(cursor)
      {
        StepUp(f, cursor, from, h);
        ReverseSnoc(chain, cursor);
        chain := chain + [cursor];
        cursor := ParentOf(Abs(), cursor).value;
      }
    }

    /** `plan_roll_from`. */
    method PlanRollFrom(from: Chunk, newRootHeight: nat) returns (r: Option<RollJob>)
      requires Valid(Abs()) && InTree(Abs(), sched) && Hangs(Abs(), from) && WellLinked(from)
      ensures r == PlanRoll(Abs(), from, newRootHeight)
    {
      InTreeFacts(Abs(), sched);
      var oldHeight := HeightOf(sched);
      if newRootHeight <= oldHeight {
        return None;
      }
      var newRoot := WalkTo(from, newRootHeight);
      var cursor, chain := Collect(newRoot, oldHeight);
      PlanMeets(Abs(), from, newRootHeight, newRoot, cursor);
      if cursor != sched {
        return None;
      }
      r := Some(RollJob(sched.block, oldHeight, newRoot, Reverse(chain)));
    }

    /** The chain part of `validate_roll`: every link from the root, oldest first. */
    method ChainLinks(job: RollJob) returns (ok: bool)
      requires Valid(Abs()) && (forall c :: c in job.chain ==> LinkOk(c))
      ensures ok ==> LinksTo(Abs(), job.chain, |job.chain|, job.newRoot)
      ensures !ok ==> !ValidRoll(Abs(), job)
    {
      ghost var f := Abs();
      var prev := root;
      var i := 0;
      while i < |job.chain|
        invariant LinksTo(f, job.chain, i, prev)
        invariant prev == if i == 0 then root else job.chain[i - 1]
      {
        var chunk := job.chain[i];
        if ValidRoll(f, job) { ValidRollLinks(f, job, i); }
        if HeightOf(chunk) != HeightOf(prev) + 1 || ParentOf(Abs(), chunk) != Some(prev) {
          return false;
        }
        LinkNext(f, job.chain, i, prev);
        prev := chunk;
        i := i + 1;
      }
      if ValidRoll(f, job) { ValidRollLinks(f, job, i); }
      ok := prev == job.newRoot;
    }

    /** The last part of `validate_roll`: walk up from the head looking for `target`. */
    method OnHeadPath(target: Chunk) returns (ok: bool)
      requires Valid(Abs()) && Above(root, target) && HeightOf(root) < HeightOf(target)
      ensures ok <==> Above(target, head)
    {
      ghost var f := Abs();
      var cursor := head;
      while cursor != target
        invariant Hangs(f, cursor) && Above(cursor, head)
        invariant Above(target, head) ==> Above(target, cursor)
        decreases HeightOf(cursor)
      {
        HangsFacts(f, cursor);
        if HeightOf(cursor) <= HeightOf(target) {
          if Above(target, cursor) { AboveFacts(target, cursor); }
          return false;
        }
        StepUp(f, cursor, head, HeightOf(target));
        cursor := ParentOf(Abs(), cursor).value;
      }
      ok := true;
    }

    /** `validate_roll`: accepts exactly the rolls from the current root, along an unbroken
        chain, to a chunk the head descends from. */
    method ValidateRoll(job: RollJob) returns (ok: bool)
      requires Valid(Abs()) && (forall c :: c in job.chain ==> LinkOk(c))
      ensures ok <==> ValidRoll(Abs(), job)
    {
      if ValidRoll(Abs(), job) { ValidRollLinks(Abs(), job, 0); }
      if root.block != job.expectedHash || HeightOf(root) != job.expectedHeight {
        return false;
      }
      if job.chain == [] {
        return false;
      }
      if HeightOf(job.newRoot) < HeightOf(root) || |job.chain| != HeightOf(job.newRoot) - HeightOf(root) {
        return false;
      }
      var linked := ChainLinks(job);
      if !linked {
        return false;
      }
      LinkedChainValid(Abs(), job);
      ok := OnHeadPath(job.newRoot);
    }

    /** `commit_roll`: a refused job changes nothing; a valid one moves the root, and the
        final check that the head is still found cannot fail. */
    method CommitRoll(job: RollJob) returns (ok: bool)
      requires Valid(Abs()) && (forall c :: c in job.chain ==> LinkOk(c))
      modifies this
      ensures ok <==> old(ValidRoll(Abs(), job))
      ensures Valid(Abs())
      ensures Abs() == if ok then ForkTree.CommitRoll(old(Abs()), job) else old(Abs())
    {
      ok := ValidateRoll(job);
      if !ok {
        return;
      }
      CommitRollValid(Abs(), job);
      InTreeAbove(Abs(), job.newRoot, head);
      InTreeFacts(Abs(), job.newRoot);
      assert root in disk && job.newRoot in frozen && job.newRoot !in disk;
      disk := disk + {job.newRoot};
      root := job.newRoot;
      var found := Find(head.block);
      FindComplete(Abs(), head);
      ok := found.Some?;
    }

    /** The checks shared by every attach: the live parent, if the chunk may join below it. */
    method CheckAttach(parentHash: Block, chunk: Chunk) returns (r: Option<Chunk>)
      requires Valid(Abs()) && Opened(chunk)
      ensures r.Some? <==> MayAttach(Abs(), parentHash, chunk)
      ensures r.Some? ==> r == Some(chunk.parent) && Hangs(Abs(), chunk) && WellLinked(chunk)
    {
      var parent := Find(parentHash);
      if parent.None? || HeightOf(chunk) != HeightOf(parent.value) + 1 {
        return None;
      }
      var seen := Find(chunk.block);
      if seen.Some? || ParentOf(Abs(), chunk) != parent || chunk in frozen {
        return None;
      }
      HangsFacts(Abs(), chunk);
      r := parent;
    }

    /** Freeze the chunk and publish it in its parent's children. */
    method Publish(chunk: Chunk)
      requires chunk.Node?
      modifies this
      ensures Abs() == AddChild(old(Abs()), chunk)
    {
      kids := kids[chunk.parent := Kids(Abs(), chunk.parent) + [chunk]];
      frozen := frozen + {chunk};
    }

    /** `attach_inner`. */
    method Attach(parentHash: Block, chunk: Chunk, window: nat, linear: bool) returns (r: Option<Inserted>)
      requires Valid(Abs()) && InTree(Abs(), sched) && Opened(chunk)
      modifies this
      ensures Valid(Abs())
      ensures match ForkTree.Attach(old(Abs()), parentHash, chunk, window, linear)
              case Refused => r == None && Abs() == old(Abs())
              case Attached(f, ins) => r == Some(ins) && Abs() == f
    {
      AttachValid(Abs(), parentHash, chunk, window, linear);
      var parent := CheckAttach(parentHash, chunk);
      if parent.None? || (linear && parent.value != head) {
        return None;
      }
      var isHead := chunk.key > head.key;
      var reorg := isHead && parent.value != head;
      if linear && (!isHead || reorg) {
        return None;
      }
      if !isHead {
        Publish(chunk);
        return Some(Inserted(false, false, None, TxChange([], [])));
      }
      r := AttachHead(chunk, reorg, window, linear);
    }

    method AttachHead(chunk: Chunk, reorg: bool, window: nat, linear: bool) returns (r: Option<Inserted>)
      requires Valid(Abs()) && InTree(Abs(), sched) && chunk.Node? && InTree(Abs(), chunk.parent) && LinkOk(chunk)
      requires Hangs(Abs(), chunk)
      modifies this
      ensures match AttachAsHead(old(Abs()), chunk, reorg, window, linear)
              case Refused => r == None && Abs() == old(Abs())
              case Attached(f, ins) => r == Some(ins) && Abs() == f
    {
      HangsFacts(Abs(), chunk);
      HangsFacts(Abs(), head);
      var plan := PlanFor(chunk, window, linear);
      if plan.None? {
        return None;
      }
      var txs := CanonicalTxDiff(chunk);
      Publish(chunk);
      MoveHead(chunk, plan.value);
      r := Some(Inserted(true, reorg, plan.value, txs));
    }

    /** The roll policy of an attach that becomes head. */
    method PlanFor(chunk: Chunk, window: nat, linear: bool) returns (r: Option<Option<RollJob>>)
      requires Valid(Abs()) && InTree(Abs(), sched) && Hangs(Abs(), chunk) && WellLinked(chunk)
      ensures r == RollFor(Abs(), chunk, window, linear)
    {
      var height, schedHeight := HeightOf(chunk), HeightOf(sched);
      var over := if linear then height >= schedHeight + window else height > schedHeight + window;
      if !over {
        return Some(None);
      }
      var job := PlanRollFrom(chunk, schedHeight + (if linear then window else 1));
      r := if job.Some? then Some(job) else None;
    }

    method MoveHead(chunk: Chunk, roll: Option<RollJob>)
      modifies this
      ensures Abs() == AdoptHead(old(Abs()), chunk, roll)
    {
      head := chunk;
      epoch := NextEpoch(epoch);
      if roll.Some? {
        sched := roll.value.newRoot;
      }
    }

    /** `attach_side`. */
    method AttachSide(parentHash: Block, chunk: Chunk) returns (ok: bool)
      requires Valid(Abs()) && Opened(chunk)
      modifies this
      ensures Valid(Abs())
      ensures match ForkTree.AttachSide(old(Abs()), parentHash, chunk)
              case Refused => !ok && Abs() == old(Abs())
              case Attached(f, _) => ok && Abs() == f
    {
      var parent := CheckAttach(parentHash, chunk);
      ok := parent.Some?;
      if ok {
        AddChildValid(Abs(), parentHash, chunk);
        Publish(chunk);
      }
    }

    /** `back_hashes`: the branch of the head, newest first, at most `depth` blocks and never
        past the root. */
    method BackHashes(depth: nat) returns (out: seq<(nat, Block)>)
      requires Valid(Abs())
      ensures Reverse(out) == Tail(head.block, BackLimit(Abs(), depth))
    {
      ghost var f := Abs();
      ghost var lo := BackLimit(f, depth);
      InTreeFacts(f, head);
      out := [];
      var cursor := head;
      for n := 0 to depth
        invariant InTree(f, cursor) && HeightOf(cursor) == HeightOf(head) - n
        invariant BackOut(f, cursor, lo, out)
      {
        InTreeFacts(f, cursor);
        HangsFacts(f, cursor);
        BackStep(f, cursor, lo, out);
        out := out + [(HeightOf(cursor), cursor.block)];
        match ParentOf(Abs(), cursor) {
          case None => return;
          case Some(p) => cursor := p;
        }
      }
      InTreeFacts(f, cursor);
      TailEmpty(cursor.block, lo);
    }

    /** `branch_blocks`: the blocks from the durable root to `hash`, oldest first. */
    method BranchBlocks(hash: Block) returns (r: Option<seq<Block>>)
      requires Valid(Abs())
      ensures r.Some? <==> ForkTree.Find(Abs(), hash).Some?
      ensures r.Some? ==> LinesUp(r.value, hash, HeightOf(root))
    {
      ghost var f := Abs();
      var found := Find(hash);
      if found.None? {
        return None;
      }
      var cursor := found.value;
      var blocks: seq<Block> := [];
      InTreeFacts(f, cursor);
      while cursor != root
        invariant Listing(f, cursor, hash, blocks)
        decreases HeightOf(cursor)
      {
        ListStep(f, cursor, hash, blocks);
        blocks := blocks + [cursor.block];
        cursor := ParentOf(Abs(), cursor).value;
      }
      ListStep(f, cursor, hash, blocks);
      blocks := blocks + [cursor.block];
      ReversedLines(blocks, hash, HeightOf(root));
      r := Some(Reverse(blocks));
    }

    /** The canonical chain, oldest first. */
    method CanonicalChain() returns (chain: seq<Chunk>)
      requires Valid(Abs()) && Above(root, head)
      ensures chain == Canonical(Abs())
    {
      var cursor, above := Collect(head, HeightOf(root));
      HangsFacts(Abs(), cursor);
      HangsFacts(Abs(), head);
      AboveFacts(root, cursor);
      chain := [root] + Reverse(above);
    }

    /** Children of the canonical chain that are not its next chunk. */
    method SideRoots(chain: seq<Chunk>) returns (s: seq<Chunk>)
      requires Valid(Abs()) && Above(root, head) && chain == Canonical(Abs())
      ensures ListsSideRoots(Abs(), s) && AllNodes(s)
    {
      s := [];
      for i := 0 to |chain|
        invariant SideUpTo(Abs(), i, s)
      {
        var next := if i + 1 < |chain| then Some(chain[i + 1].block) else None;
        SideStep(Abs(), i, s);
        s := s + SideKids(Kids(Abs(), chain[i]), next);
      }
      SideDone(Abs(), s);
    }

    /** Count the live chunks whose hash is not canonical. */
    method CountSide(canonical: set<Block>) returns (n: nat)
      requires Valid(Abs()) && Above(root, head)
      requires MarksPath(Abs(), canonical)
      ensures n == |SideNodes(Abs())|
    {
      ghost var f := Abs();
      n := 0;
      var stack := [root];
      ghost var visited: set<Chunk> := {};
      CountStarts(f);
      while stack != []
        invariant Counting(f, visited, stack, n)
        decreases AllChunks(f) - visited
      {
        var node, rest := stack[|stack| - 1], stack[..|stack| - 1];
        assert stack == rest + [node];
        CountRound(f, visited, rest, node, n, canonical);
        n := if node.block in canonical then n else n + 1;
        stack, visited := rest + Kids(Abs(), node), visited + {node};
      }
      CountEnds(f, visited, n);
    }

    /** The canonical hashes and the side branches, weakest first. */
    method SideOrder() returns (canonical: set<Block>, order: seq<Chunk>)
      requires Valid(Abs())
      ensures MarksPath(Abs(), canonical)
      ensures Evicting(Abs(), Abs(), 0, order, 0)
    {
      ghost var f := Abs();
      InTreeFacts(f, head);
      var chain := CanonicalChain();
      canonical := set c | c in chain :: c.block;
      CanonicalSet(f, canonical);
      var found := SideRoots(chain);
      order := SortWeakest(found);
      ListsPermuted(f, found, order);
      EvictStarts(f, order);
    }

    /** `remove_block_child`. */
    method CutBranch(c: Chunk)
      requires c.Node?
      modifies this
      ensures Abs() == RemoveKid(old(Abs()), c)
    {
      kids := kids[c.parent := Without(Kids(Abs(), c.parent), c)];
    }

    /** Cut the weakest side branches, one at a time, until the side chunks fit. The list
        cannot run out first, and each cut finds its parent and its entry. */
    method EnforceSideCapacity(capacity: nat)
      requires Valid(Abs())
      modifies this
      ensures Valid(Abs()) && Evicted(old(Abs()), Abs(), capacity)
    {
      ghost var f := Abs();
      var canonical, order := SideOrder();
      var k := 0;
      var count := CountSide(canonical);
      while count > capacity
        invariant Evicting(f, Abs(), capacity, order, k) && count == |SideNodes(Abs())|
        decreases |order| - k
      {
        EvictRound(f, Abs(), capacity, order, k, canonical);
        CutBranch(order[k]);
        k := k + 1;
        count := CountSide(canonical);
      }
      EvictDone(f, Abs(), capacity, order, k);
    }

    /** `canonical_tx_diff` from the head to a chunk joining below a live parent. */
    method CanonicalTxDiff(chunk: Chunk) returns (txs: TxChange)
      requires Valid(Abs()) && Hangs(Abs(), chunk)
      requires WellLinked(head) && WellLinked(chunk) && Above(root, head) && Above(root, chunk)
      ensures txs == TxDiff(root, head, chunk)
    {
      var oldCursor, newCursor := head, chunk;
      var oldBranch: seq<Chunk>, newBranch: seq<Chunk> := [], [];
      while HeightOf(oldCursor) > HeightOf(newCursor)
        invariant Lifting(Abs(), chunk, oldCursor, newCursor, oldBranch, newBranch)
        decreases HeightOf(oldCursor)
      {
        LiftOld(Abs(), chunk, oldCursor, newCursor, oldBranch, newBranch);
        oldBranch := oldBranch + [oldCursor];
        oldCursor := ParentOf(Abs(), oldCursor).value;
      }
      while HeightOf(newCursor) > HeightOf(oldCursor)
        invariant Lifting(Abs(), chunk, oldCursor, newCursor, oldBranch, newBranch)
        invariant HeightOf(newCursor) >= HeightOf(oldCursor)
        decreases HeightOf(newCursor)
      {
        LiftNew(Abs(), chunk, oldCursor, newCursor, oldBranch, newBranch);
        newBranch := newBranch + [newCursor];
        newCursor := ParentOf(Abs(), newCursor).value;
      }
      while oldCursor != newCursor
        invariant Lifting(Abs(), chunk, oldCursor, newCursor, oldBranch, newBranch)
        invariant HeightOf(newCursor) == HeightOf(oldCursor)
        decreases HeightOf(oldCursor)
      {
        LiftBoth(Abs(), chunk, oldCursor, newCursor, oldBranch, newBranch);
        oldBranch, newBranch := oldBranch + [oldCursor], newBranch + [newCursor];
        oldCursor, newCursor := ParentOf(Abs(), oldCursor).value, ParentOf(Abs(), newCursor).value;
      }
      var oldTxs, newTxs := TxsOf(Reverse(oldBranch)), TxsOf(Reverse(newBranch));
      txs := TxChange(Minus(newTxs, oldTxs), Minus(oldTxs, newTxs));
    }
  }
}
