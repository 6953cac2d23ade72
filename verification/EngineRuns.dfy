/** Whole runs of the engine: safety at every point, order of root moves, recovery. */
module EngineRuns {
  import opened Options
  import opened Blocks
  import opened ForkTree
  import opened StateView
  import opened BlockStore
  import opened Engine
  import opened EngineInv

  /** Step `i` of a run leads from state `i` to state `i + 1`. */
  ghost predicate StepAt(states: seq<Eng>, steps: seq<EngineStep>, genesis: Block, window: nat, i: nat) {
    i < |steps| && i + 1 < |states| && Step(states[i], steps[i], states[i + 1], genesis, window)
  }

  /** A run: consecutive states joined by steps, crashes and boots included. */
  ghost predicate Run(states: seq<Eng>, steps: seq<EngineStep>, genesis: Block, window: nat) {
    |states| == |steps| + 1 && forall i :: 0 <= i < |steps| ==> StepAt(states, steps, genesis, window, i)
  }

  /** The states that satisfy the invariant. */
  ghost function Sound(genesis: Block, window: nat): iset<Eng> {
    iset e: Eng | Inv(e, genesis, window)
  }

  /** The state a fresh database starts in, after the genesis state and markers are written. */
  function Fresh(genesis: Block, uid: nat, key: real): Eng
    requires genesis.Genesis?
  {
    var db := Put(Put(genesis.init, RootHash, Some(HashCell(genesis))), RootHeight, Some(HeightCell(0)));
    Eng(FreshForest(RootChunk(uid, genesis, key)), BlockDb(map[], map[], 0), db, [], Waiting, true, None, map[])
  }

  lemma FreshInv(genesis: Block, uid: nat, key: real, window: nat)
    requires genesis.Genesis?
    ensures Inv(Fresh(genesis, uid, key), genesis, window)
    ensures BootAccepts(Fresh(genesis, uid, key).store, Fresh(genesis, uid, key).db, genesis)
  {
    var e := Fresh(genesis, uid, key);
    FreshValid(e.f.root, window);
    forall h: nat ensures IndexedAt(e.store, genesis, h) {}
  }

  /** Step `i` of a run does not leave `good`. */
  ghost predicate StaysAt(good: iset<Eng>, states: seq<Eng>, i: nat) {
    i + 1 < |states| && (states[i] in good ==> states[i + 1] in good)
  }

  /** What no step leaves is never left. */
  lemma {:induction false} StaysIn(good: iset<Eng>, states: seq<Eng>, i: nat)
    requires i < |states| && states[0] in good && forall k :: 0 <= k < |states| - 1 ==> StaysAt(good, states, k)
    ensures states[i] in good
  {
    if i > 0 {
      StaysIn(good, states, i - 1);
      assert StaysAt(good, states, i - 1);
    }
  }

  lemma StepKeepsSound(states: seq<Eng>, steps: seq<EngineStep>, genesis: Block, window: nat, i: nat)
    requires Run(states, steps, genesis, window) && i < |steps|
    ensures StaysAt(Sound(genesis, window), states, i)
  {
    assert StepAt(states, steps, genesis, window, i);
    if states[i] in Sound(genesis, window) {
      StepKeepsInv(states[i], steps[i], states[i + 1], genesis, window);
    }
  }

  /** Every state of every run satisfies the invariant. */
  lemma RunInv(states: seq<Eng>, steps: seq<EngineStep>, genesis: Block, window: nat, i: nat)
    requires Run(states, steps, genesis, window) && states[0] in Sound(genesis, window) && i < |states|
    ensures states[i] in Sound(genesis, window)
  {
    forall k | 0 <= k < |steps| ensures StaysAt(Sound(genesis, window), states, k) {
      StepKeepsSound(states, steps, genesis, window, k);
    }
    StaysIn(Sound(genesis, window), states, i);
  }

  /** Crash safety of whole runs: stop anywhere, and what is on disk is sound. */
  lemma RunCrashSafe(states: seq<Eng>, steps: seq<EngineStep>, genesis: Block, window: nat, i: nat)
    requires Run(states, steps, genesis, window) && states[0] in Sound(genesis, window) && i < |states|
    ensures DiskSound(states[i].store, states[i].db, genesis)
  {
    RunInv(states, steps, genesis, window, i);
    CrashSafe(states[i], genesis, window);
    BootAcceptsIff(states[i], genesis, window);
  }

  /** What a crash may leave behind: the state database holds the state of the block its
      markers name, that block is indexed at or below the cursor, the index is one hash-linked
      chain with its bodies, and boot accepts as soon as a canonical block was stored. */
  ghost predicate DiskSound(store: BlockDb, db: KV, genesis: Block) {
    var r := PersistedRoot(db, genesis);
    && Holds(db, r) && Height(r) <= store.cursor
    && (Height(r) > 0 ==> Height(r) in store.index && store.index[Height(r)] == r && Stored(store, r))
    && (forall h :: 1 < h <= store.cursor ==> LinksAt(store, h))
    && (store.cursor > 0 ==> BootAccepts(store, db, genesis))
  }

  // ------------------------------------------------------------ disk and tree agree

  /** Between inserts the index is the canonical path, the cursor the head height, and every
      live block above the root is stored. */
  lemma QuietAgreement(e: Eng, genesis: Block, window: nat)
    requires Inv(e, genesis, window) && e.queue == [] && e.replay.None?
    ensures Linked(e.f.head.block) && e.store.cursor == HeightOf(e.f.head)
    ensures forall h :: h in e.store.index <==> 1 <= h <= HeightOf(e.f.head)
    ensures forall h :: 1 <= h <= HeightOf(e.f.head) ==> e.store.index[h] == AncestorAt(e.f.head.block, h)
    ensures forall c :: InTree(e.f, c) && c != e.f.root ==> Stored(e.store, c.block)
    ensures e.f.root == e.f.sched
  {
    forall h: nat
      ensures h in e.store.index <==> 1 <= h <= HeightOf(e.f.head)
      ensures 1 <= h <= HeightOf(e.f.head) ==> e.store.index[h] == AncestorAt(e.f.head.block, h)
    {
      assert IndexedAt(e.store, e.f.head.block, h);
    }
    forall c | InTree(e.f, c) && c != e.f.root ensures Stored(e.store, c.block) {
      assert HasBody(e.f, e.store, [], c);
    }
  }

  /** The block store refuses no write of any run: no gap, no missing body, no broken path. */
  lemma StoreNeverRefuses(states: seq<Eng>, steps: seq<EngineStep>, genesis: Block, window: nat, i: nat)
    requires Run(states, steps, genesis, window) && states[0] in Sound(genesis, window) && i < |states|
    requires states[i].stage.Waiting? && states[i].queue != []
    ensures SaveBlock(states[i]).Some?
  {
    RunInv(states, steps, genesis, window, i);
    if states[i].replay.None? {
      SaveAccepted(states[i], genesis, window);
    }
  }

  /** Root, scheduled root and head lie on one ancestor path, and the head is never more than
      the window above the scheduled root, in every state of every run. */
  lemma CursorsOnOnePath(states: seq<Eng>, steps: seq<EngineStep>, genesis: Block, window: nat, i: nat)
    requires Run(states, steps, genesis, window) && states[0] in Sound(genesis, window) && i < |states|
    ensures var f := states[i].f;
            Above(f.root, f.sched) && Above(f.sched, f.head) && HeightOf(f.head) <= HeightOf(f.sched) + window
  {
    RunInv(states, steps, genesis, window, i);
    RollsAbove(states[i].f.root, Left(states[i]), states[i].f.head, states[i].f.sched);
  }

  // ------------------------------------------------------------ order of root moves

  /** The first queued roll still to come. */
  predicate FirstRoll(q: seq<PersistJob>, i: nat) {
    i < |q| && q[i].roll.Some? && forall k :: 0 <= k < i ==> q[k].roll.None?
  }

  /** In a path of rolls the first one starts at `r` and leads to the head; every later one
      expects a higher root. */
  lemma RollsOrdered(r: Chunk, q: seq<PersistJob>, head: Chunk, sched: Chunk, i: nat)
    requires RollsPath(r, q, head, sched) && i < |q| && q[i].roll.Some? && WellLinked(head)
    ensures FirstRoll(q, i) ==> JobFrom(r, q[i].roll.value) && Above(q[i].roll.value.newRoot, head)
    ensures !FirstRoll(q, i) ==> q[i].roll.value.expectedHeight > HeightOf(r)
    ensures q[i].roll.value.expectedHeight >= HeightOf(r)
    decreases |q|
  {
    AboveTransitive(r, q[0].chunk.parent, q[0].chunk);
    AboveFacts(q[0].chunk, head);
    if i == 0 {
      AboveTransitive(q[0].roll.value.newRoot, q[0].chunk, head);
    } else {
      var t := q[1..];
      var r' := if q[0].roll.Some? then q[0].roll.value.newRoot else r;
      RollsOrdered(r', t, head, sched, i - 1);
      assert FirstRoll(q, i) ==> FirstRoll(t, i - 1) by {
        assert forall k :: 0 <= k < i - 1 ==> t[k] == q[k + 1];
      }
      assert q[0].roll.None? && FirstRoll(t, i - 1) ==> FirstRoll(q, i) by {
        assert forall k :: 1 <= k < i ==> q[k] == t[k - 1];
      }
      if q[0].roll.Some? {
        AboveFacts(r', q[0].chunk);
        AboveFacts(r, r');
      }
    }
  }

  /** A queued roll validates exactly when it is the next in order; one committed out of
      turn is refused and moves nothing. */
  lemma RollsValidateInOrder(e: Eng, genesis: Block, window: nat, i: nat)
    requires Inv(e, genesis, window) && i < |Left(e)| && Left(e)[i].roll.Some?
    ensures ValidRoll(e.f, Left(e)[i].roll.value) <==> FirstRoll(Left(e), i)
  {
    InTreeFacts(e.f, e.f.head);
    RollsOrdered(e.f.root, Left(e), e.f.head, e.f.sched, i);
  }

  // ------------------------------------------------------------ nothing gets stuck

  function StageRank(s: Stage): nat {
    match s case Waiting => 5 case Saved => 4 case Moving => 3 case Written => 2 case Committed => 1
  }

  /** Work left on the queue. */
  function Work(e: Eng): nat {
    if e.queue == [] then 0 else 5 * (|e.queue| - 1) + StageRank(e.stage)
  }

  /** While jobs are queued the next persistence step is always enabled: its write is
      accepted and its roll validates. */
  lemma PersistAdvances(e: Eng, genesis: Block, window: nat) returns (s: EngineStep, e': Eng)
    requires Inv(e, genesis, window) && e.queue != []
    ensures Step(e, s, e', genesis, window) && Persisting(s) && Work(e') < Work(e)
    ensures e'.f.head == e.f.head && e'.replay == e.replay
  {
    match e.stage
    case Waiting =>
      if e.replay.None? { SaveAccepted(e, genesis, window); }
      s, e' := StoreWrite, e.(store := SaveBlock(e).value, stage := Saved);
    case Saved =>
      if e.queue[0].roll.None? {
        s, e' := JobDone, e.(queue := e.queue[1..], stage := Waiting);
      } else {
        FrontRollValid(e.f, e.queue);
        s, e' := BeginMove, e.(stage := Moving, available := false);
      }
    case _ =>
      s, e' := MoveAdvances(e);
  }

  lemma MoveAdvances(e: Eng) returns (s: EngineStep, e': Eng)
    requires (e.stage.Moving? || e.stage.Written? || e.stage.Committed?) && e.queue != [] && e.queue[0].roll.Some?
    requires !e.stage.Committed? ==> RollsPath(e.f.root, e.queue, e.f.head, e.f.sched)
    ensures forall genesis, window :: Step(e, s, e', genesis, window)
    ensures Persisting(s)
    ensures Work(e') < Work(e) && e'.f.head == e.f.head && e'.replay == e.replay
  {
    match e.stage
    case Moving =>
      s, e' := BatchWrite, e.(stage := Written, db := BatchResult(e.db, e.queue[0].roll.value));
    case Written =>
      FrontRollValid(e.f, e.queue);
      s, e' := CommitMove, e.(stage := Committed, f := CommitRoll(e.f, e.queue[0].roll.value));
    case Committed =>
      s, e' := EndMove, e.(stage := Waiting, available := true, queue := e.queue[1..]);
  }

  /** The run `states`, `steps` leads from `a` to `b`. */
  ghost predicate Leads(a: Eng, states: seq<Eng>, steps: seq<EngineStep>, b: Eng, genesis: Block, window: nat) {
    Run(states, steps, genesis, window) && states[0] == a && states[|steps|] == b
  }

  lemma StepMoved(states: seq<Eng>, steps: seq<EngineStep>, i: nat, states': seq<Eng>, steps': seq<EngineStep>, j: nat,
                  genesis: Block, window: nat)
    requires StepAt(states, steps, genesis, window, i) && j < |steps'| && j + 1 < |states'|
    requires states'[j] == states[i] && states'[j + 1] == states[i + 1] && steps'[j] == steps[i]
    ensures StepAt(states', steps', genesis, window, j)
  {
  }

  lemma LeadsThen(a: Eng, s1: seq<Eng>, t1: seq<EngineStep>, b: Eng, s2: seq<Eng>, t2: seq<EngineStep>, c: Eng,
                  genesis: Block, window: nat)
    requires Leads(a, s1, t1, b, genesis, window) && Leads(b, s2, t2, c, genesis, window)
    ensures Leads(a, s1 + s2[1..], t1 + t2, c, genesis, window)
  {
    var s, t := s1 + s2[1..], t1 + t2;
    forall i | 0 <= i < |t| ensures StepAt(s, t, genesis, window, i) {
      if i < |t1| {
        StepMoved(s1, t1, i, s, t, i, genesis, window);
      } else {
        StepMoved(s2, t2, i - |t1|, s, t, i, genesis, window);
      }
    }
  }

  lemma StepLeads(a: Eng, s: EngineStep, b: Eng, genesis: Block, window: nat)
    requires Step(a, s, b, genesis, window)
    ensures Leads(a, [a, b], [s], b, genesis, window)
  {
    assert StepAt([a, b], [s], genesis, window, 0);
  }

  lemma LeadsFirst(a: Eng, s: EngineStep, b: Eng, states: seq<Eng>, steps: seq<EngineStep>, c: Eng,
                   genesis: Block, window: nat)
    requires Step(a, s, b, genesis, window) && Leads(b, states, steps, c, genesis, window)
    ensures Leads(a, [a] + states, [s] + steps, c, genesis, window)
  {
    StepLeads(a, s, b, genesis, window);
    LeadsJoin(a, s, b, states, steps, c, genesis, window);
  }

  lemma LeadsJoin(a: Eng, s: EngineStep, b: Eng, states: seq<Eng>, steps: seq<EngineStep>, c: Eng,
                  genesis: Block, window: nat)
    requires Leads(a, [a, b], [s], b, genesis, window) && Leads(b, states, steps, c, genesis, window)
    ensures Leads(a, [a] + states, [s] + steps, c, genesis, window)
  {
    LeadsThen(a, [a, b], [s], b, states, steps, c, genesis, window);
    assert [a, b] + states[1..] == [a] + states;
  }

  /** A step of the persister. */
  predicate Persisting(s: EngineStep) {
    s.StoreWrite? || s.JobDone? || s.BeginMove? || s.BatchWrite? || s.CommitMove? || s.EndMove?
  }

  predicate OnlyPersists(steps: seq<EngineStep>) {
    forall i :: 0 <= i < |steps| ==> Persisting(steps[i])
  }

  lemma PersistsFirst(s: EngineStep, steps: seq<EngineStep>)
    requires Persisting(s) && OnlyPersists(steps)
    ensures OnlyPersists([s] + steps)
  {
  }

  lemma PersistStep(e: Eng, genesis: Block, window: nat) returns (s: EngineStep, e': Eng)
    requires e in Sound(genesis, window) && e.queue != []
    ensures Step(e, s, e', genesis, window) && Persisting(s) && e' in Sound(genesis, window) && Work(e') < Work(e)
    ensures e'.f.head == e.f.head && e'.replay == e.replay
  {
    s, e' := PersistAdvances(e, genesis, window);
    StepKeepsInv(e, s, e', genesis, window);
  }

  /** The persister alone can always drain its queue. */
  lemma {:induction false} Drains(e: Eng, genesis: Block, window: nat)
      returns (states: seq<Eng>, steps: seq<EngineStep>, e': Eng)
    requires e in Sound(genesis, window)
    ensures Leads(e, states, steps, e', genesis, window) && e' in Sound(genesis, window) && e'.queue == []
    ensures OnlyPersists(steps)
    ensures e'.f.head == e.f.head && e'.replay == e.replay
    decreases Work(e)
  {
    if e.queue == [] {
      states, steps, e' := [e], [], e;
    } else {
      var s, m := PersistStep(e, genesis, window);
      states, steps, e' := Drains(m, genesis, window);
      LeadsFirst(e, s, m, states, steps, e', genesis, window);
      PersistsFirst(s, steps);
      states, steps := [e] + states, [s] + steps;
    }
  }

  // ------------------------------------------------------------ when boot can be refused

  /** Fork choice grows along a branch: a block outranks its parent. */
  predicate Rises(e: Eng, s: EngineStep) {
    match s
    case SideBody(b, key) => b.Child? && (Find(e.f, b.prev).Some? ==> key > Find(e.f, b.prev).value.key)
    case _ => true
  }

  lemma EmptyStoreOneChunk(e: Eng, genesis: Block, window: nat)
    requires Inv(e, genesis, window) && e.queue == [] && e.replay.None? && e.store.bodies == map[]
    ensures forall c :: InTree(e.f, c) ==> c == e.f.head
  {
    forall c | InTree(e.f, c) ensures c == e.f.root {
      assert HasBody(e.f, e.store, [], c);
    }
  }

  lemma RisingKeepsEmpty(e: Eng, s: EngineStep, e': Eng, genesis: Block, window: nat)
    requires Inv(e, genesis, window) && Step(e, s, e', genesis, window) && Rises(e, s)
    requires e.store.cursor == 0 ==> e.store.bodies == map[]
    ensures e'.store.cursor == 0 ==> e'.store.bodies == map[]
  {
    if s.SideBody? {
      if e.store.bodies == map[] { EmptyStoreOneChunk(e, genesis, window); }
    } else if s.StoreWrite? && e.replay.None? {
      SaveAccepted(e, genesis, window);
      QueuedLive(e, genesis, window, 0);
      InTreeFacts(e.f, e.queue[0].chunk);
    }
  }

  lemma RisingStep(e: Eng, s: EngineStep, e': Eng, genesis: Block, window: nat)
    requires Inv(e, genesis, window) && Step(e, s, e', genesis, window) && Rises(e, s)
    requires BootAccepts(e.store, e.db, genesis)
    ensures Inv(e', genesis, window) && BootAccepts(e'.store, e'.db, genesis)
  {
    BootAcceptsIff(e, genesis, window);
    RisingKeepsEmpty(e, s, e', genesis, window);
    StepKeepsInv(e, s, e', genesis, window);
    BootAcceptsIff(e', genesis, window);
  }

  /** Sound states whose boot is accepted. */
  ghost function Bootable(genesis: Block, window: nat): iset<Eng> {
    iset e: Eng | Inv(e, genesis, window) && BootAccepts(e.store, e.db, genesis)
  }

  /** Step `i` of a run keeps fork choice rising. */
  ghost predicate RisesAt(states: seq<Eng>, steps: seq<EngineStep>, i: nat) {
    i < |states| && i < |steps| && Rises(states[i], steps[i])
  }

  ghost predicate RisingRun(states: seq<Eng>, steps: seq<EngineStep>, genesis: Block, window: nat) {
    Run(states, steps, genesis, window) && forall k :: 0 <= k < |steps| ==> RisesAt(states, steps, k)
  }

  lemma RisingStepAt(states: seq<Eng>, steps: seq<EngineStep>, genesis: Block, window: nat, i: nat)
    requires RisingRun(states, steps, genesis, window) && i < |steps|
    ensures StaysAt(Bootable(genesis, window), states, i)
  {
    assert StepAt(states, steps, genesis, window, i) && RisesAt(states, steps, i);
    if states[i] in Bootable(genesis, window) {
      RisingStep(states[i], steps[i], states[i + 1], genesis, window);
    }
  }

  /** If every side block outranks its parent, boot accepts after a crash at any point of any
      run that starts bootable, such as one from a fresh database. */
  lemma RisingRunBoots(states: seq<Eng>, steps: seq<EngineStep>, genesis: Block, window: nat, i: nat)
    requires RisingRun(states, steps, genesis, window) && states[0] in Bootable(genesis, window) && i < |states|
    ensures states[i] in Bootable(genesis, window)
  {
    forall k | 0 <= k < |steps| ensures StaysAt(Bootable(genesis, window), states, k) {
      RisingStepAt(states, steps, genesis, window, k);
    }
    StaysIn(Bootable(genesis, window), states, i);
  }

  /** Otherwise it can be refused: on a fresh database a first block that does not outrank
      genesis, as only a consensus with keys other than heights allows, is a side block, and
      once its body is stored a crash cannot be booted. */
  lemma EarlySideBodyBlocksBoot(genesis: Block, uid: nat, rootKey: real, b: Block, key: real, window: nat)
    requires genesis.Genesis? && b.Child? && b.prev == genesis && b.number == 1 && key <= rootKey
    ensures var e := Fresh(genesis, uid, rootKey);
            var e' := e.(store := PutBody(e.store, b, b));
            Step(e, SideBody(b, key), e', genesis, window) && !BootAccepts(e'.store, e'.db, genesis)
  {
    var e := Fresh(genesis, uid, rootKey);
    var e' := e.(store := PutBody(e.store, b, b));
    FreshInv(genesis, uid, rootKey, window);
    assert Find(e.f, genesis) == Some(e.f.root);
    assert b in e'.store.bodies;
  }
}
