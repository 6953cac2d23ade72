/** The transaction action tree: the walk that reports findings, and the condition it decides. */
module ActionTree {
  import opened Options

  const USIZE_MAX: nat := 0xFFFF_FFFF_FFFF_FFFF

  datatype TopRule = NoRule | Only | OnlyWithGuards | Unique

  /** Where an action may stand: as a top action (under a rule), inside the tree, in a call. */
  datatype Scope = Scope(guard: bool, top: Option<TopRule>, allowAst: bool, allowCall: bool)

  datatype From = Top | Ast

  /** `depthInc` is what entering the children costs. */
  datatype Nested = Nested(depthInc: nat, branches: seq<Branch>)

  datatype Branch = Branch(acts: seq<Act>)

  datatype Act = Act(kind: nat, scope: Scope, minType: nat, required: bv64, nested: Option<Nested>)

  datatype Finding =
    | BadLength(n: nat) | BadScope(kind: nat) | LowType(kind: nat) | NotActive(kind: nat)
    | DepthOverflow | TooDeep(depth: nat)
    | AllGuards | NotOnly(kind: nat) | NotOnlyWithGuards(kind: nat) | NotUnique(kind: nat)

  /** The transaction type, its activation flags if any, and the depth limit. */
  datatype Ctx = Ctx(txType: nat, flags: Option<bv64>, maxDepth: nat)

  datatype Stats = Stats(findings: seq<Finding>, notes: seq<(nat, Finding)>, topCount: nat, topKinds: seq<(nat, nat)>,
                         topGuards: nat, terminalNonGuards: nat, terminalGuards: bool)

  const NO_STATS: Stats := Stats([], [], 0, [], 0, 0, false)

  predicate Allows(s: Scope, from: From) {
    match from case Top => s.top.Some? case Ast => s.allowAst
  }

  predicate Activated(act: Act, flags: Option<bv64>) {
    flags.Some? ==> act.required & !flags.value == 0
  }

  // ------------------------------------------------------------ the walk

  /** What is wrong with the node itself, if anything. */
  function NodeFinding(c: Ctx, act: Act, from: From): Option<Finding> {
    if !Allows(act.scope, from) then Some(BadScope(act.kind))
    else if c.txType < act.minType then Some(LowType(act.kind))
    else if !Activated(act, c.flags) then Some(NotActive(act.kind))
    else None
  }

  function Report(st: Stats, f: Finding, top: Option<nat>): Stats {
    st.(findings := st.findings + [f], notes := if top.Some? then st.notes + [(top.value, f)] else st.notes)
  }

  function AddKind(kinds: seq<(nat, nat)>, k: nat): seq<(nat, nat)> {
    if kinds == [] then [(k, 1)]
    else if kinds[0].0 == k then [(k, kinds[0].1 + 1)] + kinds[1..]
    else [kinds[0]] + AddKind(kinds[1..], k)
  }

  function KindCount(kinds: seq<(nat, nat)>, k: nat): nat {
    if kinds == [] then 0 else if kinds[0].0 == k then kinds[0].1 else KindCount(kinds[1..], k)
  }

  function CountTop(st: Stats, act: Act): Stats {
    st.(topCount := st.topCount + 1, topKinds := AddKind(st.topKinds, act.kind),
        topGuards := st.topGuards + (if act.scope.guard then 1 else 0))
  }

  function CountLeaf(st: Stats, act: Act): Stats {
    if act.scope.guard then st.(terminalGuards := true) else st.(terminalNonGuards := st.terminalNonGuards + 1)
  }

  function DepthFinding(c: Ctx, depth: nat, inc: nat): Option<Finding> {
    if depth + inc > USIZE_MAX then Some(DepthOverflow)
    else if depth + inc > c.maxDepth then Some(TooDeep(depth + inc))
    else None
  }

  function Visited(c: Ctx, act: Act, from: From, depth: nat, top: Option<nat>, st: Stats): Stats
    decreases act
  {
    if NodeFinding(c, act, from).Some? then Report(st, NodeFinding(c, act, from).value, top)
    else
      var st := if from.Top? then CountTop(st, act) else st;
      match act.nested
      case None => CountLeaf(st, act)
      case Some(n) =>
        if DepthFinding(c, depth, n.depthInc).Some? then Report(st, DepthFinding(c, depth, n.depthInc).value, None)
        else VisitedBranches(c, n.branches, depth + n.depthInc, st)
  }

  function VisitedBranches(c: Ctx, branches: seq<Branch>, depth: nat, st: Stats): Stats
    decreases branches
  {
    if branches == [] then st else VisitedBranches(c, branches[1..], depth, VisitedAll(c, branches[0].acts, depth, st))
  }

  function VisitedAll(c: Ctx, acts: seq<Act>, depth: nat, st: Stats): Stats
    decreases acts
  {
    if acts == [] then st else VisitedAll(c, acts[1..], depth, Visited(c, acts[0], Ast, depth, None, st))
  }

  /** Top actions from index `i` on. */
  function VisitedTop(c: Ctx, actions: seq<Act>, i: nat, st: Stats): Stats
    requires i <= |actions|
    decreases |actions| - i
  {
    if i == |actions| then st else VisitedTop(c, actions, i + 1, Visited(c, actions[i], Top, 0, Some(i), st))
  }

  function RuleFinding(st: Stats, act: Act): Option<Finding> {
    match act.scope.top
    case Some(Only) => if st.topCount != 1 then Some(NotOnly(act.kind)) else None
    case Some(OnlyWithGuards) =>
      if st.topCount != st.topGuards + 1 || st.terminalNonGuards != 1 then Some(NotOnlyWithGuards(act.kind)) else None
    case Some(Unique) => if KindCount(st.topKinds, act.kind) != 1 then Some(NotUnique(act.kind)) else None
    case _ => None
  }

  function Ruled(actions: seq<Act>, i: nat, st: Stats): Stats
    requires i <= |actions|
    decreases |actions| - i
  {
    if i == |actions| then st
    else
      var f := RuleFinding(st, actions[i]);
      Ruled(actions, i + 1, if f.Some? then Report(st, f.value, None) else st)
  }

  function Guarded(st: Stats): Stats {
    if st.terminalGuards && st.terminalNonGuards == 0 then Report(st, AllGuards, None) else st
  }

  function Facts(c: Ctx, actions: seq<Act>, maxActions: nat): Stats {
    if actions == [] || |actions| > maxActions then Report(NO_STATS, BadLength(|actions|), None)
    else Ruled(actions, 0, Guarded(VisitedTop(c, actions, 0, NO_STATS)))
  }

  // ------------------------------------------------------------ the walk as it runs

  class Walk {
    var stats: Stats

    constructor ()
      ensures stats == NO_STATS
    {
      stats := NO_STATS;
    }

    /** `visit`: recursion that updates the shared statistics. */
    method Visit(c: Ctx, act: Act, from: From, depth: nat, top: Option<nat>)
      modifies this
      ensures stats == Visited(c, act, from, depth, top, old(stats))
      decreases act
    {
      var wrong := NodeFinding(c, act, from);
      if wrong.Some? {
        stats := Report(stats, wrong.value, top);
        return;
      }
      if from.Top? {
        stats := CountTop(stats, act);
      }
      if act.nested.None? {
        stats := CountLeaf(stats, act);
        return;
      }
      var n := act.nested.value;
      var deep := DepthFinding(c, depth, n.depthInc);
      if deep.Some? {
        stats := Report(stats, deep.value, None);
        return;
      }
      ghost var start := stats;
      assert n.branches[0..] == n.branches;
      for i := 0 to |n.branches|
        invariant VisitedBranches(c, n.branches[i..], depth + n.depthInc, stats)
               == VisitedBranches(c, n.branches, depth + n.depthInc, start)
      {
        var branch := n.branches[i].acts;
        assert n.branches[i..][0].acts == branch && n.branches[i..][1..] == n.branches[i + 1..];
        ghost var before := stats;
        assert branch[0..] == branch;
        for j := 0 to |branch|
          invariant VisitedAll(c, branch[j..], depth + n.depthInc, stats)
                 == VisitedAll(c, branch, depth + n.depthInc, before)
        {
          assert branch[j..][0] == branch[j] && branch[j..][1..] == branch[j + 1..];
          Visit(c, n.branches[i].acts[j], Ast, depth + n.depthInc, None);
        }
      }
    }

    method CheckTopRule(act: Act)
      modifies this
      ensures var f := RuleFinding(old(stats), act);
              stats == if f.Some? then Report(old(stats), f.value, None) else old(stats)
    {
      var f := RuleFinding(stats, act);
      if f.Some? {
        stats := Report(stats, f.value, None);
      }
    }
  }

  /** `topology_facts_with_action_limit`. */
  method TopologyFacts(c: Ctx, actions: seq<Act>, maxActions: nat)
    returns (findings: seq<Finding>, notes: seq<(nat, Finding)>)
    ensures findings == Facts(c, actions, maxActions).findings && notes == Facts(c, actions, maxActions).notes
  {
    var w := new Walk();
    if actions == [] || |actions| > maxActions {
      return [BadLength(|actions|)], [];
    }
    for i := 0 to |actions|
      invariant VisitedTop(c, actions, i, w.stats) == VisitedTop(c, actions, 0, NO_STATS)
    {
      w.Visit(c, actions[i], Top, 0, Some(i));
    }
    if w.stats.terminalGuards && w.stats.terminalNonGuards == 0 {
      w.stats := Report(w.stats, AllGuards, None);
    }
    ghost var walked := w.stats;
    for i := 0 to |actions|
      invariant Ruled(actions, i, w.stats) == Ruled(actions, 0, walked)
    {
      w.CheckTopRule(actions[i]);
    }
    return w.stats.findings, w.stats.notes;
  }

  // ------------------------------------------------------------ the condition it decides

  /** The action a path of (branch, index) steps leads to, and the depth at which it stands. */
  function Follow(act: Act, depth: nat, path: seq<(nat, nat)>): Option<(Act, nat)>
    decreases |path|
  {
    if path == [] then Some((act, depth))
    else if act.nested.None? then None
    else
      var n := act.nested.value;
      var (i, j) := path[0];
      if i < |n.branches| && j < |n.branches[i].acts| then Follow(n.branches[i].acts[j], depth + n.depthInc, path[1..])
      else None
  }

  /** A node in place: allowed there, its type and flags met, and room to enter its children. */
  predicate NodeOk(c: Ctx, act: Act, from: From, depth: nat) {
    && (from.Top? ==> act.scope.top.Some?) && (from.Ast? ==> act.scope.allowAst)
    && c.txType >= act.minType && Activated(act, c.flags)
    && (act.nested.Some? ==> depth + act.nested.value.depthInc <= c.maxDepth)
  }

  predicate PathOk(c: Ctx, act: Act, path: seq<(nat, nat)>) {
    var end := Follow(act, 0, path);
    end.Some? ==> NodeOk(c, end.value.0, if path == [] then Top else Ast, end.value.1)
  }

  /** Leaves that are not guards, and whether some leaf is one. */
  function NonGuards(act: Act): nat
    decreases act
  {
    match act.nested case None => if act.scope.guard then 0 else 1 case Some(n) => NonGuardsIn(n.branches)
  }

  function NonGuardsIn(branches: seq<Branch>): nat
    decreases branches
  {
    if branches == [] then 0 else NonGuardsAll(branches[0].acts) + NonGuardsIn(branches[1..])
  }

  function NonGuardsAll(acts: seq<Act>): nat
    decreases acts
  {
    if acts == [] then 0 else NonGuards(acts[0]) + NonGuardsAll(acts[1..])
  }

  predicate HasGuard(act: Act)
    decreases act
  {
    match act.nested case None => act.scope.guard case Some(n) => HasGuardIn(n.branches)
  }

  predicate HasGuardIn(branches: seq<Branch>)
    decreases branches
  {
    branches != [] && (HasGuardAll(branches[0].acts) || HasGuardIn(branches[1..]))
  }

  predicate HasGuardAll(acts: seq<Act>)
    decreases acts
  {
    acts != [] && (HasGuard(acts[0]) || HasGuardAll(acts[1..]))
  }

  function OfKind(actions: seq<Act>, k: nat): nat {
    if actions == [] then 0 else (if actions[0].kind == k then 1 else 0) + OfKind(actions[1..], k)
  }

  function Guards(actions: seq<Act>): nat {
    if actions == [] then 0 else (if actions[0].scope.guard then 1 else 0) + Guards(actions[1..])
  }

  /** The rule a top action carries, over the whole list. */
  predicate RuleOk(actions: seq<Act>, act: Act) {
    match act.scope.top
    case Some(Only) => |actions| == 1
    case Some(OnlyWithGuards) => |actions| == Guards(actions) + 1 && NonGuardsAll(actions) == 1
    case Some(Unique) => OfKind(actions, act.kind) == 1
    case _ => true
  }

  ghost predicate WellFormed(c: Ctx, actions: seq<Act>, maxActions: nat) {
    && 1 <= |actions| <= maxActions
    && (forall i, path :: 0 <= i < |actions| ==> PathOk(c, actions[i], path))
    && !(HasGuardAll(actions) && NonGuardsAll(actions) == 0)
    && forall i :: 0 <= i < |actions| ==> RuleOk(actions, actions[i])
  }

  // ------------------------------------------------------------ one tree

  /** The condition on one tree, following its shape. */
  predicate TreeOk(c: Ctx, act: Act, from: From, depth: nat)
    decreases act
  {
    && NodeOk(c, act, from, depth)
    && (act.nested.Some? ==> BranchesOk(c, act.nested.value.branches, depth + act.nested.value.depthInc))
  }

  predicate BranchesOk(c: Ctx, branches: seq<Branch>, depth: nat)
    decreases branches
  {
    branches != [] ==> ActsOk(c, branches[0].acts, depth) && BranchesOk(c, branches[1..], depth)
  }

  predicate ActsOk(c: Ctx, acts: seq<Act>, depth: nat)
    decreases acts
  {
    acts != [] ==> TreeOk(c, acts[0], Ast, depth) && ActsOk(c, acts[1..], depth)
  }

  /** What a walk over a sound tree adds to the leaf counts. */
  function AddLeaves(st: Stats, nonGuards: nat, guard: bool): Stats {
    st.(terminalNonGuards := st.terminalNonGuards + nonGuards, terminalGuards := st.terminalGuards || guard)
  }

  /** A walk reports something exactly when the tree is not sound; a silent walk has counted
      the leaves. */
  predicate Judges(st: Stats, ok: bool, nonGuards: nat, guard: bool, st': Stats) {
    && st.findings <= st'.findings && (st'.findings == st.findings <==> ok)
    && (ok ==> st' == AddLeaves(st, nonGuards, guard))
  }

  lemma {:induction false} VisitJudges(c: Ctx, act: Act, depth: nat, st: Stats)
    requires c.maxDepth <= USIZE_MAX
    ensures Judges(st, TreeOk(c, act, Ast, depth), NonGuards(act), HasGuard(act), Visited(c, act, Ast, depth, None, st))
    decreases act
  {
    if NodeOk(c, act, Ast, depth) && act.nested.Some? {
      BranchesJudge(c, act.nested.value.branches, depth + act.nested.value.depthInc, st);
    }
  }

  lemma {:induction false} BranchesJudge(c: Ctx, branches: seq<Branch>, depth: nat, st: Stats)
    requires c.maxDepth <= USIZE_MAX
    ensures Judges(st, BranchesOk(c, branches, depth), NonGuardsIn(branches), HasGuardIn(branches),
                   VisitedBranches(c, branches, depth, st))
    decreases branches
  {
    if branches != [] {
      var st1 := VisitedAll(c, branches[0].acts, depth, st);
      ActsJudge(c, branches[0].acts, depth, st);
      BranchesJudge(c, branches[1..], depth, st1);
    }
  }

  lemma {:induction false} ActsJudge(c: Ctx, acts: seq<Act>, depth: nat, st: Stats)
    requires c.maxDepth <= USIZE_MAX
    ensures Judges(st, ActsOk(c, acts, depth), NonGuardsAll(acts), HasGuardAll(acts), VisitedAll(c, acts, depth, st))
    decreases acts
  {
    if acts != [] {
      var st1 := Visited(c, acts[0], Ast, depth, None, st);
      VisitJudges(c, acts[0], depth, st);
      ActsJudge(c, acts[1..], depth, st1);
    }
  }

  lemma TopJudges(c: Ctx, act: Act, i: nat, st: Stats)
    requires c.maxDepth <= USIZE_MAX
    ensures var st' := Visited(c, act, Top, 0, Some(i), st);
            && st.findings <= st'.findings && (st'.findings == st.findings <==> TreeOk(c, act, Top, 0))
            && (TreeOk(c, act, Top, 0) ==> st' == AddLeaves(CountTop(st, act), NonGuards(act), HasGuard(act)))
  {
    if NodeOk(c, act, Top, 0) && act.nested.Some? {
      BranchesJudge(c, act.nested.value.branches, act.nested.value.depthInc, CountTop(st, act));
    }
  }

  // ------------------------------------------------------------ the whole list

  predicate TreesOk(c: Ctx, actions: seq<Act>, i: nat)
    requires i <= |actions|
    decreases |actions| - i
  {
    i < |actions| ==> TreeOk(c, actions[i], Top, 0) && TreesOk(c, actions, i + 1)
  }

  lemma AddKindCount(kinds: seq<(nat, nat)>, k: nat, x: nat)
    ensures KindCount(AddKind(kinds, k), x) == KindCount(kinds, x) + (if x == k then 1 else 0)
  {
  }

  /** What a silent walk of the top actions from `i` on has counted. */
  predicate CountedFrom(actions: seq<Act>, i: nat, st: Stats, st': Stats)
    requires i <= |actions|
  {
    var rest := actions[i..];
    && st'.topCount == st.topCount + |rest| && st'.topGuards == st.topGuards + Guards(rest)
    && st'.terminalNonGuards == st.terminalNonGuards + NonGuardsAll(rest)
    && st'.terminalGuards == (st.terminalGuards || HasGuardAll(rest))
  }

  ghost predicate KindsFrom(actions: seq<Act>, i: nat, st: Stats, st': Stats)
    requires i <= |actions|
  {
    forall k :: KindCount(st'.topKinds, k) == KindCount(st.topKinds, k) + OfKind(actions[i..], k)
  }

  lemma {:induction false} TopsJudge(c: Ctx, actions: seq<Act>, i: nat, st: Stats)
    requires c.maxDepth <= USIZE_MAX && i <= |actions|
    ensures var st' := VisitedTop(c, actions, i, st);
            && st.findings <= st'.findings && (st'.findings == st.findings <==> TreesOk(c, actions, i))
            && (TreesOk(c, actions, i) ==> CountedFrom(actions, i, st, st') && KindsFrom(actions, i, st, st'))
    decreases |actions| - i
  {
    if i < |actions| {
      var st1 := Visited(c, actions[i], Top, 0, Some(i), st);
      TopJudges(c, actions[i], i, st);
      TopsJudge(c, actions, i + 1, st1);
      assert actions[i..][1..] == actions[i + 1..];
      forall k: nat ensures TreeOk(c, actions[i], Top, 0) ==>
          KindCount(st1.topKinds, k) == KindCount(st.topKinds, k) + (if actions[i].kind == k then 1 else 0) {
        AddKindCount(st.topKinds, actions[i].kind, k);
      }
    } else {
      assert actions[i..] == [];
    }
  }

  lemma {:induction false} RulesJudge(actions: seq<Act>, i: nat, st: Stats)
    requires i <= |actions|
    ensures var st' := Ruled(actions, i, st);
            && st.findings <= st'.findings
            && (st'.findings == st.findings <==> forall j :: i <= j < |actions| ==> RuleFinding(st, actions[j]).None?)
    decreases |actions| - i
  {
    if i < |actions| {
      var f := RuleFinding(st, actions[i]);
      RulesJudge(actions, i + 1, if f.Some? then Report(st, f.value, None) else st);
    }
  }

  lemma RuleIsCounted(actions: seq<Act>, st: Stats, j: nat)
    requires j < |actions| && CountedFrom(actions, 0, NO_STATS, st) && KindsFrom(actions, 0, NO_STATS, st)
    ensures RuleFinding(st, actions[j]).None? <==> RuleOk(actions, actions[j])
  {
    assert actions[0..] == actions;
  }

  lemma TreesOkAt(c: Ctx, actions: seq<Act>, i: nat)
    requires i <= |actions|
    ensures TreesOk(c, actions, i) <==> forall j :: i <= j < |actions| ==> TreeOk(c, actions[j], Top, 0)
    decreases |actions| - i
  {
    if i < |actions| {
      TreesOkAt(c, actions, i + 1);
    }
  }

  // ------------------------------------------------------------ paths and shape

  lemma {:induction false} ActsOkAt(c: Ctx, acts: seq<Act>, depth: nat)
    ensures ActsOk(c, acts, depth) <==> forall j :: 0 <= j < |acts| ==> TreeOk(c, acts[j], Ast, depth)
    decreases |acts|
  {
    if acts != [] {
      ActsOkAt(c, acts[1..], depth);
      assert forall j :: 0 < j < |acts| ==> acts[j] == acts[1..][j - 1];
      assert forall j :: 0 <= j < |acts| - 1 ==> acts[1..][j] == acts[j + 1];
    }
  }

  lemma {:induction false} BranchesOkAt(c: Ctx, branches: seq<Branch>, depth: nat)
    ensures BranchesOk(c, branches, depth) <==> forall i :: 0 <= i < |branches| ==> ActsOk(c, branches[i].acts, depth)
    decreases |branches|
  {
    if branches != [] {
      BranchesOkAt(c, branches[1..], depth);
      assert forall j :: 0 < j < |branches| ==> branches[j] == branches[1..][j - 1];
      assert forall j :: 0 <= j < |branches| - 1 ==> branches[1..][j] == branches[j + 1];
    }
  }

  /** Children of a sound tree are sound. */
  lemma ChildOk(c: Ctx, act: Act, from: From, depth: nat, i: nat, j: nat)
    requires TreeOk(c, act, from, depth) && act.nested.Some?
    requires i < |act.nested.value.branches| && j < |act.nested.value.branches[i].acts|
    ensures TreeOk(c, act.nested.value.branches[i].acts[j], Ast, depth + act.nested.value.depthInc)
  {
    var n := act.nested.value;
    BranchesOkAt(c, n.branches, depth + n.depthInc);
    ActsOkAt(c, n.branches[i].acts, depth + n.depthInc);
  }

  /** In a sound tree every path ends in a node that is in place. */
  lemma {:induction false} TreeOkPaths(c: Ctx, act: Act, from: From, depth: nat, path: seq<(nat, nat)>)
    requires TreeOk(c, act, from, depth) && Follow(act, depth, path).Some?
    ensures var (sub, d) := Follow(act, depth, path).value; NodeOk(c, sub, if path == [] then from else Ast, d)
    decreases |path|
  {
    if path != [] {
      var (i, j) := path[0];
      var n := act.nested.value;
      ChildOk(c, act, from, depth, i, j);
      TreeOkPaths(c, n.branches[i].acts[j], Ast, depth + n.depthInc, path[1..]);
    }
  }

  /** A tree that is not sound has a path to a node out of place. */
  lemma {:induction false} BadPath(c: Ctx, act: Act, from: From, depth: nat) returns (path: seq<(nat, nat)>)
    requires !TreeOk(c, act, from, depth)
    ensures Follow(act, depth, path).Some?
    ensures var (sub, d) := Follow(act, depth, path).value; !NodeOk(c, sub, if path == [] then from else Ast, d)
    decreases act
  {
    if !NodeOk(c, act, from, depth) {
      path := [];
    } else {
      var n := act.nested.value;
      BranchesOkAt(c, n.branches, depth + n.depthInc);
      var i :| 0 <= i < |n.branches| && !ActsOk(c, n.branches[i].acts, depth + n.depthInc);
      ActsOkAt(c, n.branches[i].acts, depth + n.depthInc);
      var j :| 0 <= j < |n.branches[i].acts| && !TreeOk(c, n.branches[i].acts[j], Ast, depth + n.depthInc);
      var rest := BadPath(c, n.branches[i].acts[j], Ast, depth + n.depthInc);
      path := [(i, j)] + rest;
      assert path[1..] == rest;
    }
  }

  lemma TreeOkIffPaths(c: Ctx, act: Act)
    ensures TreeOk(c, act, Top, 0) <==> forall path :: PathOk(c, act, path)
  {
    if TreeOk(c, act, Top, 0) {
      forall path ensures PathOk(c, act, path) {
        if Follow(act, 0, path).Some? {
          TreeOkPaths(c, act, Top, 0, path);
        }
      }
    } else {
      var path := BadPath(c, act, Top, 0);
      assert !PathOk(c, act, path);
    }
  }

  // ------------------------------------------------------------ the main result

  /** The walk finds nothing exactly when the declarative condition holds over all nodes and
      paths, for every action forest. */
  lemma NoFindingsIffWellFormed(c: Ctx, actions: seq<Act>, maxActions: nat)
    requires c.maxDepth <= USIZE_MAX
    ensures Facts(c, actions, maxActions).findings == [] <==> WellFormed(c, actions, maxActions)
  {
    if 1 <= |actions| <= maxActions {
      var st := VisitedTop(c, actions, 0, NO_STATS);
      TopsJudge(c, actions, 0, NO_STATS);
      TreesOkAt(c, actions, 0);
      forall i | 0 <= i < |actions|
        ensures TreeOk(c, actions[i], Top, 0) <==> forall path :: PathOk(c, actions[i], path)
      {
        TreeOkIffPaths(c, actions[i]);
      }
      RulesJudge(actions, 0, Guarded(st));
      assert actions[0..] == actions;
      if TreesOk(c, actions, 0) {
        forall j | 0 <= j < |actions| ensures RuleFinding(st, actions[j]).None? <==> RuleOk(actions, actions[j]) {
          RuleIsCounted(actions, st, j);
        }
      }
    }
  }

  // ------------------------------------------------------------ notes for top actions

  lemma {:induction false} NoNotesBelow(c: Ctx, act: Act, depth: nat, st: Stats)
    ensures Visited(c, act, Ast, depth, None, st).notes == st.notes
    decreases act
  {
    if act.nested.Some? {
      NoNotesInBranches(c, act.nested.value.branches, depth + act.nested.value.depthInc, st);
    }
  }

  lemma {:induction false} NoNotesInBranches(c: Ctx, branches: seq<Branch>, depth: nat, st: Stats)
    ensures VisitedBranches(c, branches, depth, st).notes == st.notes
    decreases branches
  {
    if branches != [] {
      NoNotesInActs(c, branches[0].acts, depth, st);
      NoNotesInBranches(c, branches[1..], depth, VisitedAll(c, branches[0].acts, depth, st));
    }
  }

  lemma {:induction false} NoNotesInActs(c: Ctx, acts: seq<Act>, depth: nat, st: Stats)
    ensures VisitedAll(c, acts, depth, st).notes == st.notes
    decreases acts
  {
    if acts != [] {
      NoNotesBelow(c, acts[0], depth, st);
      NoNotesInActs(c, acts[1..], depth, Visited(c, acts[0], Ast, depth, None, st));
    }
  }

  /** The notes of top actions from `i` on: one for each whose own node is refused. */
  function NotesFrom(c: Ctx, actions: seq<Act>, i: nat): seq<(nat, Finding)>
    requires i <= |actions|
    decreases |actions| - i
  {
    if i == |actions| then []
    else
      var f := NodeFinding(c, actions[i], Top);
      (if f.Some? then [(i, f.value)] else []) + NotesFrom(c, actions, i + 1)
  }

  lemma {:induction false} TopNotes(c: Ctx, actions: seq<Act>, i: nat, st: Stats)
    requires i <= |actions|
    ensures VisitedTop(c, actions, i, st).notes == st.notes + NotesFrom(c, actions, i)
    decreases |actions| - i
  {
    if i < |actions| {
      var act := actions[i];
      if NodeFinding(c, act, Top).None? && act.nested.Some? {
        NoNotesInBranches(c, act.nested.value.branches, act.nested.value.depthInc, CountTop(st, act));
      }
      TopNotes(c, actions, i + 1, Visited(c, act, Top, 0, Some(i), st));
    }
  }

  lemma RulesAddNoNotes(actions: seq<Act>, i: nat, st: Stats)
    requires i <= |actions|
    ensures Ruled(actions, i, st).notes == st.notes
    decreases |actions| - i
  {
  }

  lemma {:induction false} NotesFromHas(c: Ctx, actions: seq<Act>, i: nat, k: nat, f: Finding)
    requires i <= |actions|
    ensures (k, f) in NotesFrom(c, actions, i) <==> i <= k < |actions| && NodeFinding(c, actions[k], Top) == Some(f)
    decreases |actions| - i
  {
    if i < |actions| {
      NotesFromHas(c, actions, i + 1, k, f);
    }
  }

  /** A top action's own refusal: a scope that does not allow it on top, else a transaction type
      that is too low, else a flag it needs that is not set. */
  predicate RefusedAs(c: Ctx, act: Act, f: Finding) {
    match f
    case BadScope(k) => k == act.kind && act.scope.top.None?
    case LowType(k) => k == act.kind && act.scope.top.Some? && c.txType < act.minType
    case NotActive(k) =>
      && k == act.kind && act.scope.top.Some? && c.txType >= act.minType
      && c.flags.Some? && act.required & !c.flags.value != 0
    case _ => false
  }

  /** A top action is marked exactly when its own scope, type or flags are refused, and with the
      first of these that is. */
  lemma NotesMarkRefusedTops(c: Ctx, actions: seq<Act>, maxActions: nat, k: nat, f: Finding)
    requires 1 <= |actions| <= maxActions
    ensures (k, f) in Facts(c, actions, maxActions).notes <==> k < |actions| && RefusedAs(c, actions[k], f)
  {
    TopNotes(c, actions, 0, NO_STATS);
    RulesAddNoNotes(actions, 0, Guarded(VisitedTop(c, actions, 0, NO_STATS)));
    NotesFromHas(c, actions, 0, k, f);
  }

  /** `precheck_tx_actions`: the first finding, or nothing. */
  method Precheck(c: Ctx, actions: seq<Act>, maxActions: nat) returns (r: Option<Finding>)
    requires c.maxDepth <= USIZE_MAX
    ensures r.None? <==> WellFormed(c, actions, maxActions)
    ensures var found := Facts(c, actions, maxActions).findings; r.Some? ==> found != [] && r.value == found[0]
  {
    var findings, notes := TopologyFacts(c, actions, maxActions);
    NoFindingsIffWellFormed(c, actions, maxActions);
    r := if findings == [] then None else Some(findings[0]);
  }
}
