/** The conservation law of the ledger: what a node counts as used is what its live allocations hold. */
module Conservation {
  import opened Amounts
  import opened Models
  import opened Store

  function Share(a: Allocation, node: Id): Amount {
    if a.Live() && a.node == node then a.size else ZERO
  }

  ghost function Shares(allocs: map<Id, Allocation>, node: Id): map<Id, Amount> {
    map id | id in allocs :: Share(allocs[id], node)
  }

  ghost function Load(allocs: map<Id, Allocation>, node: Id): Amount { Sum(Shares(allocs, node)) }

  lemma LoadUpdate(allocs: map<Id, Allocation>, id: Id, a: Allocation, node: Id)
    ensures Load(allocs[id := a], node)
            == Load(allocs, node).Minus(if id in allocs then Share(allocs[id], node) else ZERO).Plus(Share(a, node))
  {
    assert Shares(allocs[id := a], node) == Shares(allocs, node)[id := Share(a, node)];
    SumUpdate(Shares(allocs, node), id, Share(a, node));
  }

  ghost predicate Indexed(s: State) {
    && (forall name {:trigger name in s.byName} :: name in s.byName ==> s.byName[name] in s.nodes && s.nodes[s.byName[name]].name == name)
    && (forall id {:trigger id in s.nodes} :: id in s.nodes ==> s.nodes[id].id == id && s.nodes[id].name in s.byName && s.byName[s.nodes[id].name] == id)
  }

  ghost predicate Placed(s: State) {
    && (forall id :: id in s.allocs ==> s.allocs[id].id == id)
    && (forall id :: id in s.allocs && s.allocs[id].Live() ==> s.allocs[id].size.NonNegative() && s.allocs[id].node in s.nodes)
  }

  ghost predicate Balanced(s: State) {
    forall id :: id in s.nodes ==> s.nodes[id].used == Load(s.allocs, id)
  }

  ghost predicate Conserved(s: State) { Indexed(s) && Placed(s) && Balanced(s) }

  lemma EmptyIsConserved()
    ensures Conserved(EMPTY)
  {}

  lemma LoadCovers(allocs: map<Id, Allocation>, node: Id)
    requires forall id :: id in allocs && allocs[id].Live() ==> allocs[id].size.NonNegative()
    ensures Load(allocs, node).NonNegative()
    ensures forall id :: id in allocs && allocs[id].Live() && allocs[id].node == node ==> allocs[id].size.Within(Load(allocs, node))
  {
    SumNonNegative(Shares(allocs, node));
    forall id | id in allocs && allocs[id].Live() && allocs[id].node == node ensures allocs[id].size.Within(Load(allocs, node)) {
      assert Shares(allocs, node)[id] == allocs[id].size;
    }
  }

  /** A live allocation sits on a node and is never larger than what that node counts as used. */
  lemma LiveWithinUsed(s: State, id: Id)
    requires Conserved(s) && s.Live(id)
    ensures s.allocs[id].node in s.nodes && s.allocs[id].size.NonNegative()
    ensures s.allocs[id].size.Within(s.nodes[s.allocs[id].node].used)
  {
    hide Indexed, Load;
    LoadCovers(s.allocs, s.allocs[id].node);
  }

  lemma UsedNonNegative(s: State, node: Id)
    requires Conserved(s) && node in s.nodes
    ensures s.nodes[node].used.NonNegative()
  {
    hide Indexed, Load;
    LoadCovers(s.allocs, node);
  }

  /** One allocation is written and its node's used amount moved along. */
  function Rewrite(s: State, id: Id, a: Allocation): State
    requires a.node in s.nodes
  {
    var was := if s.Live(id) then s.allocs[id].size else ZERO;
    var now := if a.Live() then a.size else ZERO;
    s.SetUsed(a.node, s.nodes[a.node].used.Minus(was).Plus(now)).SetAlloc(id, a)
  }

  lemma RewriteKeepsIndex(s: State, id: Id, a: Allocation)
    requires Indexed(s) && a.node in s.nodes
    ensures Indexed(Rewrite(s, id, a))
  {}

  lemma RewriteKeepsPlaced(s: State, id: Id, a: Allocation)
    requires Placed(s) && a.node in s.nodes && a.id == id
    requires a.Live() ==> a.size.NonNegative()
    ensures Placed(Rewrite(s, id, a))
  {}

  lemma RewriteKeepsBalance(s: State, id: Id, a: Allocation)
    requires Balanced(s) && a.node in s.nodes && (s.Live(id) ==> s.allocs[id].node == a.node)
    ensures Balanced(Rewrite(s, id, a))
  {
    hide Load;
    var t := Rewrite(s, id, a);
    forall n | n in s.nodes ensures t.nodes[n].used == Load(t.allocs, n) {
      LoadUpdate(s.allocs, id, a, n);
      assert s.nodes[n].used == Load(s.allocs, n);
    }
  }

  lemma RewriteConserves(s: State, id: Id, a: Allocation)
    requires Conserved(s) && a.node in s.nodes && a.id == id
    requires a.Live() ==> a.size.NonNegative()
    requires s.Live(id) ==> s.allocs[id].node == a.node
    ensures Conserved(Rewrite(s, id, a))
  {
    hide Balanced, Indexed, Placed, Rewrite;
    RewriteKeepsIndex(s, id, a);
    RewriteKeepsPlaced(s, id, a);
    RewriteKeepsBalance(s, id, a);
    hide *;
  }

  datatype Step =
    | Reserve(node: Id, a: Allocation)
    | Activate(id: Id)
    | Release(id: Id)
    | Expand(id: Id, d: Amount)
    | Upsert(n: Node)
    | DeleteNode(node: Id)

  function Next(s: State, step: Step): State {
    match step
    case Reserve(node, a) => s.ReserveOnNode(node, a).0
    case Activate(id) => s.Activate(id).0
    case Release(id) => s.Release(id).0
    case Expand(id, d) => s.Expand(id, d).0
    case Upsert(n) => s.Upsert(n)
    case DeleteNode(node) => s.DeleteNode(node).0
  }

  /** Fresh ids, no shrink beyond the allocation, and a node that is not known by name starts unused. */
  ghost predicate Legal(s: State, step: Step) {
    match step
    case Reserve(node, a) => a.id !in s.allocs && a.size.NonNegative()
    case Expand(id, d) => s.Live(id) ==> s.allocs[id].size.Plus(d).NonNegative()
    case Upsert(n) => n.name in s.byName || (n.id !in s.nodes && n.used == ZERO)
    case _ => true
  }

  /** None of the store's clamps to zero would change a value in this step. */
  ghost predicate ClampsIdle(s: State, step: Step) {
    match step
    case Release(id) =>
      s.Live(id) && s.allocs[id].node in s.nodes ==> s.nodes[s.allocs[id].node].used.Minus(s.allocs[id].size).NonNegative()
    case Expand(id, d) =>
      s.Live(id) && s.allocs[id].node in s.nodes && s.Expand(id, d).1 == Done ==>
        s.allocs[id].size.Plus(d).NonNegative() && s.nodes[s.allocs[id].node].used.Plus(d).NonNegative()
    case _ => true
  }

  lemma ReserveConserves(s: State, node: Id, a: Allocation)
    requires Conserved(s) && a.id !in s.allocs && a.size.NonNegative() && node in s.nodes
    ensures Conserved(s.Take(node, a))
  {
    hide Load, Indexed, Balanced;
    var taken := a.(node := node, state := Reserved);
    RewriteConserves(s, a.id, taken);
    assert s.nodes[node].used.Minus(ZERO).Plus(a.size) == s.nodes[node].used.Plus(a.size);
  }

  lemma ActivateConserves(s: State, id: Id)
    requires Conserved(s)
    ensures Conserved(s.Activate(id).0)
  {
    hide Load, Indexed, Balanced;
    if s.Live(id) {
      var a := s.allocs[id];
      RewriteConserves(s, id, a.(state := Active));
      assert s.SetUsed(a.node, s.nodes[a.node].used.Minus(a.size).Plus(a.size)).nodes == s.nodes;
    }
  }

  lemma ReleaseConserves(s: State, id: Id)
    requires Conserved(s)
    ensures Conserved(s.Release(id).0) && ClampsIdle(s, Release(id))
  {
    hide Load, Indexed, Balanced;
    if s.Live(id) {
      var a := s.allocs[id];
      LiveWithinUsed(s, id);
      RewriteConserves(s, id, a.(state := Released));
      assert s.nodes[a.node].used.Minus(a.size).Floored() == s.nodes[a.node].used.Minus(a.size).Plus(ZERO);
    }
  }

  lemma ExpandConserves(s: State, id: Id, d: Amount)
    requires Conserved(s) && (s.Live(id) ==> s.allocs[id].size.Plus(d).NonNegative())
    ensures Conserved(s.Expand(id, d).0) && ClampsIdle(s, Expand(id, d))
  {
    hide Load, Indexed, Balanced;
    if s.Live(id) {
      var a := s.allocs[id];
      LiveWithinUsed(s, id);
      RewriteConserves(s, id, a.(size := a.size.Plus(d)));
      assert s.nodes[a.node].used.Plus(d).Floored() == s.nodes[a.node].used.Minus(a.size).Plus(a.size.Plus(d));
    }
  }

  /** Two states that hold the same allocations can both be conserved only if they count the same. */
  lemma ConservedIsUnique(s: State, t: State, node: Id)
    requires Conserved(s) && s.allocs == t.allocs && node in s.nodes && node in t.nodes && Conserved(t)
    ensures s.nodes[node].used == t.nodes[node].used
  {
    hide Load;
  }

  lemma ExpandConservesIff(s: State, id: Id, d: Amount)
    requires Conserved(s) && s.Live(id) && s.Expand(id, d).1 == Done
    ensures var a := s.allocs[id];
            Conserved(s.Expand(id, d).0)
            <==> s.nodes[a.node].used.Plus(d).Floored() == s.nodes[a.node].used.Minus(a.size).Plus(a.size.Plus(d).Floored())
  {
    var a := s.allocs[id];
    LiveIsPlaced(s, id);
    hide Conserved, Load, Amount.Plus, Amount.Minus, Amount.Floored;
    var kept := a.(size := a.size.Plus(d).Floored());
    FlooredIsNonNegative(a.size.Plus(d));
    RewriteConserves(s, id, kept);
    var counted := s.nodes[a.node].used.Plus(d).Floored();
    var owed := s.nodes[a.node].used.Minus(a.size).Plus(kept.size);
    assert s.Expand(id, d).0 == s.SetUsed(a.node, counted).SetAlloc(id, kept);
    assert Rewrite(s, id, kept) == s.SetUsed(a.node, owed).SetAlloc(id, kept);
    hide State.Expand, Rewrite;
    if Conserved(s.SetUsed(a.node, counted).SetAlloc(id, kept)) {
      ConservedIsUnique(s.SetUsed(a.node, owed).SetAlloc(id, kept), s.SetUsed(a.node, counted).SetAlloc(id, kept), a.node);
    }
  }

  lemma LiveIsPlaced(s: State, id: Id)
    requires Conserved(s) && s.Live(id)
    ensures s.allocs[id].node in s.nodes && s.allocs[id].id == id
  {
    hide Load, Indexed, Balanced;
  }

  lemma FlooredIsNonNegative(a: Amount)
    ensures a.Floored().NonNegative()
  {}

  /** An expansion conserves exactly when no dimension is shrunk below zero, except one the allocation holds alone. */
  lemma ExpandConservesExactly(s: State, id: Id, d: Amount)
    requires Conserved(s) && s.Live(id) && s.Expand(id, d).1 == Done
    ensures var size, used := s.allocs[id].size, s.nodes[s.allocs[id].node].used;
            Conserved(s.Expand(id, d).0) <==>
              && (size.cpu + d.cpu >= 0 || used.cpu == size.cpu)
              && (size.mem + d.mem >= 0 || used.mem == size.mem)
              && (size.disk + d.disk >= 0 || used.disk == size.disk)
  {
    LiveWithinUsed(s, id);
    ExpandConservesIff(s, id, d);
    hide Conserved, State.Expand;
  }

  lemma NobodyLivesOn(s: State, node: Id)
    requires Placed(s) && node !in s.nodes
    ensures Load(s.allocs, node) == ZERO
  {
    SumOfZeros(Shares(s.allocs, node));
  }

  lemma UpsertIndexed(s: State, n: Node)
    requires Indexed(s) && Placed(s) && (n.name in s.byName || n.id !in s.nodes)
    ensures Indexed(s.Upsert(n)) && Placed(s.Upsert(n))
  {}

  /** Upserting conserves exactly when the name is known or the newcomer reports nothing used. */
  lemma UpsertConservesExactly(s: State, n: Node)
    requires Conserved(s) && (n.name in s.byName || n.id !in s.nodes)
    ensures Conserved(s.Upsert(n)) <==> n.name in s.byName || n.used == ZERO
  {
    UpsertIndexed(s, n);
    var t := s.Upsert(n);
    if n.name !in s.byName {
      NobodyLivesOn(s, n.id);
      hide Load, Indexed, Placed;
      assert t.nodes[n.id].used == n.used;
    } else {
      hide Load, Placed;
    }
  }

  lemma LoadIgnoresReleased(allocs: map<Id, Allocation>, gone: set<Id>, node: Id)
    requires forall id :: id in gone && id in allocs ==> !allocs[id].Live()
    ensures Load(allocs - gone, node) == Load(allocs, node)
  {
    assert Shares(allocs - gone, node) == Shares(allocs, node) - gone;
    SumIgnoresZeros(Shares(allocs, node), gone);
  }

  lemma DeleteNodeIndexed(s: State, node: Id)
    requires Indexed(s) && Placed(s)
    ensures Indexed(s.DeleteNode(node).0) && Placed(s.DeleteNode(node).0)
  {
    if s.DeleteNode(node).1 == Done {
      forall id | id in s.allocs && s.allocs[id].Live() ensures s.allocs[id].node != node {
        assert !s.Occupied(node);
      }
    }
  }

  lemma DeleteNodeConserves(s: State, node: Id)
    requires Conserved(s)
    ensures Conserved(s.DeleteNode(node).0)
  {
    var t := s.DeleteNode(node).0;
    if s.DeleteNode(node).1 == Done {
      var gone := set id | id in s.allocs && s.allocs[id].node == node && s.allocs[id].state == Released;
      forall n | n in t.nodes ensures Load(t.allocs, n) == Load(s.allocs, n) {
        LoadIgnoresReleased(s.allocs, gone, n);
      }
      DeleteNodeIndexed(s, node);
      hide Load, Indexed, Placed;
    }
  }

  lemma StepConserves(s: State, step: Step)
    requires Conserved(s) && Legal(s, step)
    ensures Conserved(Next(s, step)) && ClampsIdle(s, step)
  {
    hide Load;
    match step
    case Reserve(node, a) => if s.ReserveOnNode(node, a).1 == Done { ReserveConserves(s, node, a); }
    case Activate(id) => ActivateConserves(s, id);
    case Release(id) => ReleaseConserves(s, id);
    case Expand(id, d) => ExpandConserves(s, id, d);
    case Upsert(n) => UpsertConservesExactly(s, n);
    case DeleteNode(node) => DeleteNodeConserves(s, node);
  }

  ghost predicate StepAt(states: seq<State>, steps: seq<Step>, i: nat)
    requires |states| == |steps| + 1 && i < |steps|
  {
    Legal(states[i], steps[i]) && states[i + 1] == Next(states[i], steps[i])
  }

  /** A run: steps[i] leads from states[i] to states[i + 1]. */
  ghost predicate Run(states: seq<State>, steps: seq<Step>) {
    |states| == |steps| + 1 && forall i :: 0 <= i < |steps| ==> StepAt(states, steps, i)
  }

  /** Conservation holds at every point of every run. */
  lemma {:induction false} ConservationOverRuns(states: seq<State>, steps: seq<Step>, n: nat)
    requires Run(states, steps) && Conserved(states[0]) && n <= |steps|
    ensures Conserved(states[n])
  {
    if n > 0 {
      hide Conserved, Next, Legal, ClampsIdle;
      ConservationOverRuns(states, steps, n - 1);
      assert StepAt(states, steps, n - 1);
      StepConserves(states[n - 1], steps[n - 1]);
    }
  }

  /** No step of any run ever makes the store clamp an amount to zero. */
  lemma ClampsNeverFire(states: seq<State>, steps: seq<Step>, n: nat)
    requires Run(states, steps) && Conserved(states[0]) && n < |steps|
    ensures ClampsIdle(states[n], steps[n])
  {
    hide Conserved, Next, Legal, ClampsIdle;
    ConservationOverRuns(states, steps, n);
    assert StepAt(states, steps, n);
    StepConserves(states[n], steps[n]);
  }

  lemma StepKeepsName(s: State, step: Step, name: string)
    requires Indexed(s) && name in s.byName && !Deletes(s, step, name)
    ensures name in Next(s, step).byName
  {}

  predicate Deletes(s: State, step: Step, name: string) {
    step.DeleteNode? && step.node in s.nodes && s.nodes[step.node].name == name
  }

  /** A name stays registered while its node is not deleted. */
  lemma {:induction false} NameSurvives(states: seq<State>, steps: seq<Step>, name: string, n: nat)
    requires Run(states, steps) && Conserved(states[0]) && name in states[0].byName && n <= |steps|
    requires forall i :: 0 <= i < n ==> !Deletes(states[i], steps[i], name)
    ensures name in states[n].byName
  {
    if n > 0 {
      hide Next, Legal, Deletes, Balanced, Placed;
      NameSurvives(states, steps, name, n - 1);
      ConservationOverRuns(states, steps, n - 1);
      assert StepAt(states, steps, n - 1);
      StepKeepsName(states[n - 1], steps[n - 1], name);
    }
  }

  /** RefreshNodeHealth: a node read long ago and written back with new health never disturbs the ledger. */
  lemma StaleSnapshotConserves(states: seq<State>, steps: seq<Step>, node: Id, written: Node)
    requires Run(states, steps) && Conserved(states[0]) && node in states[0].nodes
    requires written.name == states[0].nodes[node].name
    requires forall i :: 0 <= i < |steps| ==> !Deletes(states[i], steps[i], written.name)
    ensures var last := states[|steps|];
            Conserved(last) && Conserved(last.Upsert(written))
            && forall id :: id in last.nodes ==> last.Upsert(written).nodes[id].used == last.nodes[id].used
  {
    ConservationOverRuns(states, steps, |steps|);
    NameSurvives(states, steps, written.name, |steps|);
    UpsertConservesExactly(states[|steps|], written);
    hide Run, Balanced, Placed;
  }

  /** When the node was deleted meanwhile, the old used amount comes back with it, and the law breaks unless it was zero. */
  lemma ResurrectedSnapshotBreaksBalance(s: State, n: Node)
    requires Conserved(s) && n.name !in s.byName && n.id !in s.nodes && n.used != ZERO
    ensures !Conserved(s.Upsert(n)) && s.Upsert(n).nodes[n.id].used == n.used
  {
    UpsertConservesExactly(s, n);
  }

  ghost predicate WithinCapacity(s: State) {
    forall id :: id in s.nodes ==> s.nodes[id].used.Within(s.nodes[id].allocatable)
  }

  /** b exceeds a only in dimensions where it stays within cap. */
  predicate RisesWithin(a: Amount, b: Amount, cap: Amount) {
    (b.cpu > a.cpu ==> b.cpu <= cap.cpu) && (b.mem > a.mem ==> b.mem <= cap.mem) && (b.disk > a.disk ==> b.disk <= cap.disk)
  }

  /** Where a node's used amount grew between s and t, it is within allocatable. */
  ghost predicate NodeRisesWithin(s: State, t: State, id: Id) {
    id in s.nodes && id in t.nodes ==> RisesWithin(s.nodes[id].used, t.nodes[id].used, t.nodes[id].allocatable)
  }

  ghost predicate NeverOverdrawn(s: State, t: State) { forall id :: NodeRisesWithin(s, t, id) }

  ghost predicate SameNodes(s: State, t: State) {
    t.nodes.Keys <= s.nodes.Keys && forall id :: id in t.nodes ==> t.nodes[id].allocatable == s.nodes[id].allocatable
  }

  lemma ReserveRises(s: State, node: Id, a: Allocation, id: Id)
    ensures NodeRisesWithin(s, s.ReserveOnNode(node, a).0, id) && SameNodes(s, s.ReserveOnNode(node, a).0)
  {}

  lemma ActivateRises(s: State, r: Id, id: Id)
    ensures NodeRisesWithin(s, s.Activate(r).0, id) && SameNodes(s, s.Activate(r).0)
  {}

  lemma ReleaseRises(s: State, r: Id, id: Id)
    requires Placed(s) && (id in s.nodes ==> s.nodes[id].used.NonNegative())
    ensures NodeRisesWithin(s, s.Release(r).0, id) && SameNodes(s, s.Release(r).0)
  {}

  lemma ExpandRises(s: State, r: Id, d: Amount, id: Id)
    requires id in s.nodes ==> s.nodes[id].used.NonNegative()
    ensures NodeRisesWithin(s, s.Expand(r, d).0, id) && SameNodes(s, s.Expand(r, d).0)
  {}

  lemma UpsertRises(s: State, n: Node, id: Id)
    requires Indexed(s) && (n.name in s.byName || n.id !in s.nodes)
    ensures NodeRisesWithin(s, s.Upsert(n), id)
    ensures id in s.Upsert(n).nodes && id != s.Merged(n).id ==> id in s.nodes && s.Upsert(n).nodes[id] == s.nodes[id]
  {}

  lemma DeleteNodeRises(s: State, node: Id, id: Id)
    ensures NodeRisesWithin(s, s.DeleteNode(node).0, id) && SameNodes(s, s.DeleteNode(node).0)
  {}

  lemma StepRises(s: State, step: Step, id: Id)
    requires Conserved(s) && Legal(s, step)
    ensures NodeRisesWithin(s, Next(s, step), id)
    ensures !step.Upsert? ==> SameNodes(s, Next(s, step))
  {
    if id in s.nodes {
      UsedNonNegative(s, id);
    }
    hide Load, Balanced, NodeRisesWithin, SameNodes;
    match step
    case Reserve(node, a) => ReserveRises(s, node, a, id);
    case Activate(r) => ActivateRises(s, r, id);
    case Release(r) => ReleaseRises(s, r, id);
    case Expand(r, d) => ExpandRises(s, r, d, id);
    case Upsert(n) => UpsertRises(s, n, id);
    case DeleteNode(node) => DeleteNodeRises(s, node, id);
  }

  /** No single step oversells: wherever used grows, it ends up within allocatable. */
  lemma StepNeverOversells(s: State, step: Step)
    requires Conserved(s) && Legal(s, step)
    ensures NeverOverdrawn(s, Next(s, step))
    ensures !step.Upsert? ==> SameNodes(s, Next(s, step))
  {
    hide Conserved, Legal, Next, NodeRisesWithin, SameNodes;
    StepRises(s, step, NIL);
    forall id ensures NodeRisesWithin(s, Next(s, step), id) {
      StepRises(s, step, id);
    }
  }

  /** A heartbeat that does not report less than what is already used. */
  ghost predicate HonestUpsert(s: State, step: Step) {
    step.Upsert? ==> s.Merged(step.n).used.Within(step.n.allocatable)
  }

  lemma StepKeepsCapacity(s: State, step: Step)
    requires Conserved(s) && Legal(s, step) && WithinCapacity(s) && HonestUpsert(s, step)
    ensures WithinCapacity(Next(s, step))
  {
    StepNeverOversells(s, step);
    var t := Next(s, step);
    forall id | id in t.nodes ensures t.nodes[id].used.Within(t.nodes[id].allocatable) {
      assert NodeRisesWithin(s, t, id);
      if step.Upsert? {
        UpsertRises(s, step.n, id);
      } else {
        hide Next;
      }
    }
  }

  /** A node is deleted exactly when nothing live is on it; it goes with the released allocations it had, and nothing else does. */
  lemma DeleteNodeExactly(s: State, node: Id)
    requires Indexed(s)
    ensures var (t, r) := s.DeleteNode(node);
            && (r == Done <==> node in s.nodes
                               && forall a :: a in s.allocs && s.allocs[a].node == node ==> s.allocs[a].state == Released)
            && (r != Done ==> t == s)
            && (r == Done ==>
                  && t == s.(nodes := t.nodes, byName := t.byName, allocs := t.allocs)
                  && t.nodes == s.nodes - {node} && t.byName == s.byName - {s.nodes[node].name}
                  && (forall a :: a in t.allocs <==> a in s.allocs && s.allocs[a].node != node)
                  && (forall a :: a in t.allocs ==> t.allocs[a] == s.allocs[a]))
  {}

  /** With honest heartbeats no node is ever oversold. */
  lemma {:induction false} NeverOversold(states: seq<State>, steps: seq<Step>, n: nat)
    requires Run(states, steps) && Conserved(states[0]) && WithinCapacity(states[0]) && n <= |steps|
    requires forall i :: 0 <= i < n ==> HonestUpsert(states[i], steps[i])
    ensures WithinCapacity(states[n])
  {
    if n > 0 {
      hide Conserved, WithinCapacity, Next, Legal;
      NeverOversold(states, steps, n - 1);
      ConservationOverRuns(states, steps, n - 1);
      assert StepAt(states, steps, n - 1);
      StepKeepsCapacity(states[n - 1], steps[n - 1]);
    }
  }
}
