/** Deleting a project drops its workspaces and allocations without giving anything back to the nodes. */
module Projects {
  import opened Amounts
  import opened Models
  import opened Store
  import opened App
  import opened AppInv
  import Moves
  import C = Conservation

  function Dropped(s: State, project: Id): set<Id> { set a | a in s.allocs && s.allocs[a].project == project }

  function DropProject(s: State, project: Id): (State, Outcome) {
    if project !in s.projects then (s, Fail(ErrNotFound))
    else
      (s.(projects := s.projects - {project},
          workspaces := s.workspaces - (set id | id in s.workspaces && s.workspaces[id].project == project),
          allocs := s.allocs - Dropped(s, project)), Done)
  }

  /** Exactly the project, its workspaces and its allocations go. */
  lemma DropExactly(s: State, project: Id)
    requires project in s.projects
    ensures var (t, r) := DropProject(s, project);
            && r == Done && t == s.(projects := t.projects, workspaces := t.workspaces, allocs := t.allocs)
            && (forall p :: p in t.projects <==> p in s.projects && p != project)
            && (forall id :: id in t.workspaces <==> id in s.workspaces && s.workspaces[id].project != project)
            && (forall a :: a in t.allocs <==> a in s.allocs && s.allocs[a].project != project)
            && (forall id :: id in t.workspaces ==> t.workspaces[id] == s.workspaces[id])
            && (forall a :: a in t.allocs ==> t.allocs[a] == s.allocs[a])
  {}

  lemma {:induction false} TotalDrops<K>(m: map<K, int>, gone: set<K>, k: K)
    requires forall j :: j in m ==> 0 <= m[j]
    requires k in m && k in gone
    ensures Total(m - gone) <= Total(m) - m[k]
    decreases |m|
  {
    TotalSplit(m, k);
    TotalShrinks(m - {k}, gone);
    assert m - {k} - gone == m - gone;
  }

  lemma {:induction false} TotalShrinks<K>(m: map<K, int>, gone: set<K>)
    requires forall j :: j in m ==> 0 <= m[j]
    ensures Total(m - gone) <= Total(m)
    decreases |m|
  {
    if k :| k in m && k in gone {
      TotalSplit(m, k);
      TotalShrinks(m - {k}, gone);
      assert m - {k} - gone == m - gone;
    } else {
      assert m - gone == m;
    }
  }

  lemma SumDrops(m: map<Id, Amount>, gone: set<Id>, k: Id)
    requires forall j :: j in m ==> m[j].NonNegative()
    requires k in m && k in gone
    ensures Sum(m - gone).Plus(m[k]).Within(Sum(m))
  {
    assert Cpus(m - gone) == Cpus(m) - gone && Mems(m - gone) == Mems(m) - gone && Disks(m - gone) == Disks(m) - gone;
    TotalDrops(Cpus(m), gone, k);
    TotalDrops(Mems(m), gone, k);
    TotalDrops(Disks(m), gone, k);
  }

  lemma SumShrinks(m: map<Id, Amount>, gone: set<Id>)
    requires forall j :: j in m ==> m[j].NonNegative()
    ensures Sum(m - gone).Within(Sum(m))
  {
    assert Cpus(m - gone) == Cpus(m) - gone && Mems(m - gone) == Mems(m) - gone && Disks(m - gone) == Disks(m) - gone;
    TotalShrinks(Cpus(m), gone);
    TotalShrinks(Mems(m), gone);
    TotalShrinks(Disks(m), gone);
  }

  lemma SharesNonNegative(s: State, node: Id)
    requires C.Placed(s)
    ensures forall a :: a in C.Shares(s.allocs, node) ==> C.Shares(s.allocs, node)[a].NonNegative()
  {}

  /** The project has nothing live that counts. */
  ghost predicate HoldsNothing(s: State, project: Id) {
    forall a :: a in s.allocs && s.allocs[a].Live() && s.allocs[a].project == project ==> s.allocs[a].size == ZERO
  }

  lemma NothingLost(s: State, project: Id, node: Id)
    requires HoldsNothing(s, project)
    ensures C.Load(s.allocs - Dropped(s, project), node) == C.Load(s.allocs, node)
  {
    assert C.Shares(s.allocs - Dropped(s, project), node) == C.Shares(s.allocs, node) - Dropped(s, project);
    SumIgnoresZeros(C.Shares(s.allocs, node), Dropped(s, project));
  }

  lemma SomethingLost(s: State, project: Id, a: Id)
    requires C.Placed(s) && s.Live(a) && s.allocs[a].project == project && s.allocs[a].size != ZERO
    ensures C.Load(s.allocs - Dropped(s, project), s.allocs[a].node) != C.Load(s.allocs, s.allocs[a].node)
  {
    var node := s.allocs[a].node;
    var m: map<Id, Amount> := C.Shares(s.allocs, node);
    SharesNonNegative(s, node);
    assert C.Shares(s.allocs - Dropped(s, project), node) == m - Dropped(s, project);
    assert m[a] == s.allocs[a].size;
    SumDrops(m, Dropped(s, project), a);
  }

  /** Deleting a project keeps the ledger balanced exactly when the project has nothing live left that counts. */
  lemma DropConservesExactly(s: State, project: Id)
    requires C.Conserved(s) && project in s.projects
    ensures C.Conserved(DropProject(s, project).0) <==> HoldsNothing(s, project)
  {
    var t := DropProject(s, project).0;
    hide C.Load;
    if HoldsNothing(s, project) {
      forall n | n in t.nodes ensures t.nodes[n].used == C.Load(t.allocs, n) {
        NothingLost(s, project, n);
      }
    } else {
      var a :| a in s.allocs && s.allocs[a].Live() && s.allocs[a].project == project && s.allocs[a].size != ZERO;
      SomethingLost(s, project, a);
      assert s.nodes[s.allocs[a].node].used == C.Load(s.allocs, s.allocs[a].node);
    }
  }

  /**
   An owner who is no platform admin only asks for destruction, which succeeds, and the project is then dropped with
   everything its workspace holds still counted.
   */
  lemma OwnerDeletionLosesUsage(x: World, project: Id, id: Id, actor: Actor, now: int)
    requires Inv(x.db) && project in x.db.projects && !actor.platformAdmin
    requires id in x.db.workspaces && x.db.workspaces[id].project == project && x.db.Live(x.db.workspaces[id].alloc)
    requires DestroyWorkspace(x, id, actor, now).1 == Done
    ensures !C.Conserved(DropProject(DestroyWorkspace(x, id, actor, now).0.db, project).0)
  {
    var y := DestroyWorkspace(x, id, actor, now).0;
    Moves.ReviewIsQuiet(x, id, actor, now);
    hide RequestDestroy, C.Conserved, OneOwner;
    assert WsOk(x.db, id, x.db.workspaces[id]);
    var a := x.db.workspaces[id].alloc;
    assert y.db.Live(a) && y.db.allocs[a].project == project && y.db.allocs[a].size != ZERO;
    ConservedIgnores(x.db, y.db);
    DropConservesExactly(y.db, project);
  }

  // ----- what survives

  ghost predicate CoveredAt(s: State, node: Id) { node in s.nodes ==> C.Load(s.allocs, node).Within(s.nodes[node].used) }

  /** What live allocations hold is at most what the node counts. */
  ghost predicate Covered(s: State) { C.Indexed(s) && C.Placed(s) && forall n :: CoveredAt(s, n) }

  lemma DropPlaced(s: State, project: Id)
    requires C.Indexed(s) && C.Placed(s)
    ensures C.Indexed(DropProject(s, project).0) && C.Placed(DropProject(s, project).0)
  {}

  lemma DropCoversAt(s: State, project: Id, n: Id)
    requires C.Placed(s) && CoveredAt(s, n)
    ensures CoveredAt(DropProject(s, project).0, n)
  {
    if project in s.projects {
      SharesNonNegative(s, n);
      assert C.Shares(s.allocs - Dropped(s, project), n) == C.Shares(s.allocs, n) - Dropped(s, project);
      SumShrinks(C.Shares(s.allocs, n), Dropped(s, project));
      hide C.Placed, C.Shares, Dropped;
    }
  }

  lemma DropCovers(s: State, project: Id)
    requires Covered(s)
    ensures Covered(DropProject(s, project).0)
  {
    DropPlaced(s, project);
    hide C.Indexed, C.Placed, DropProject, CoveredAt;
    forall n ensures CoveredAt(DropProject(s, project).0, n) {
      DropCoversAt(s, project, n);
    }
  }

  lemma RewriteCoversAt(s: State, id: Id, a: Allocation, n: Id)
    requires CoveredAt(s, n) && a.node in s.nodes && (s.Live(id) ==> s.allocs[id].node == a.node)
    ensures CoveredAt(C.Rewrite(s, id, a), n)
  {
    C.LoadUpdate(s.allocs, id, a, n);
    hide C.Load;
  }

  lemma RewriteCovers(s: State, id: Id, a: Allocation)
    requires Covered(s) && a.node in s.nodes && a.id == id && (a.Live() ==> a.size.NonNegative())
    requires s.Live(id) ==> s.allocs[id].node == a.node
    ensures Covered(C.Rewrite(s, id, a))
  {
    C.RewriteKeepsIndex(s, id, a);
    C.RewriteKeepsPlaced(s, id, a);
    hide C.Rewrite, C.Indexed, C.Placed, CoveredAt;
    forall n ensures CoveredAt(C.Rewrite(s, id, a), n) {
      RewriteCoversAt(s, id, a, n);
    }
  }

  lemma LiveWithinCovered(s: State, id: Id)
    requires Covered(s) && s.Live(id)
    ensures s.allocs[id].node in s.nodes && s.allocs[id].size.NonNegative()
    ensures s.allocs[id].size.Within(s.nodes[s.allocs[id].node].used)
  {
    hide C.Indexed, C.Load;
    assert CoveredAt(s, s.allocs[id].node);
    C.LoadCovers(s.allocs, s.allocs[id].node);
  }

  lemma ReserveCovers(s: State, node: Id, a: Allocation)
    requires Covered(s) && a.id !in s.allocs && a.size.NonNegative() && s.ReserveOnNode(node, a).1 == Done
    ensures Covered(s.ReserveOnNode(node, a).0)
  {
    hide C.Load, C.Indexed;
    RewriteCovers(s, a.id, a.(node := node, state := Reserved));
    assert s.nodes[node].used.Minus(ZERO).Plus(a.size) == s.nodes[node].used.Plus(a.size);
    hide Covered;
  }

  lemma ActivateCovers(s: State, id: Id)
    requires Covered(s) && s.Live(id)
    ensures Covered(s.Activate(id).0)
  {
    hide C.Load, C.Indexed;
    var a := s.allocs[id];
    LiveWithinCovered(s, id);
    RewriteCovers(s, id, a.(state := Active));
    assert s.SetUsed(a.node, s.nodes[a.node].used.Minus(a.size).Plus(a.size)).nodes == s.nodes;
    hide Covered;
  }

  lemma ReleaseCovers(s: State, id: Id)
    requires Covered(s) && s.Live(id)
    ensures Covered(s.Release(id).0)
  {
    hide C.Load, C.Indexed;
    var a := s.allocs[id];
    LiveWithinCovered(s, id);
    RewriteCovers(s, id, a.(state := Released));
    assert s.nodes[a.node].used.Minus(a.size).Floored() == s.nodes[a.node].used.Minus(a.size).Plus(ZERO);
    hide Covered;
  }

  lemma ExpandCovers(s: State, id: Id, d: Amount)
    requires Covered(s) && s.Live(id) && s.allocs[id].size.Plus(d).NonNegative() && s.Expand(id, d).1 == Done
    ensures Covered(s.Expand(id, d).0)
  {
    hide C.Load, C.Indexed;
    var a := s.allocs[id];
    LiveWithinCovered(s, id);
    RewriteCovers(s, id, a.(size := a.size.Plus(d)));
    assert s.nodes[a.node].used.Plus(d).Floored() == s.nodes[a.node].used.Minus(a.size).Plus(a.size.Plus(d));
    hide Covered;
  }

  lemma UpsertCovers(s: State, n: Node)
    requires Covered(s) && (n.name in s.byName || (n.id !in s.nodes && n.used == ZERO))
    ensures Covered(s.Upsert(n))
  {
    C.UpsertIndexed(s, n);
    if n.name !in s.byName {
      C.NobodyLivesOn(s, n.id);
    }
    hide C.Load, C.Placed;
    forall k ensures CoveredAt(s.Upsert(n), k) {
      assert CoveredAt(s, k);
    }
  }

  lemma DeleteNodeCovers(s: State, node: Id)
    requires Covered(s)
    ensures Covered(s.DeleteNode(node).0)
  {
    C.DeleteNodeIndexed(s, node);
    hide C.Indexed, C.Placed, C.Load;
    if s.DeleteNode(node).1 == Done {
      var gone := set id | id in s.allocs && s.allocs[id].node == node && s.allocs[id].state == Released;
      forall n ensures CoveredAt(s.DeleteNode(node).0, n) {
        C.LoadIgnoresReleased(s.allocs, gone, n);
        assert CoveredAt(s, n);
      }
    }
  }

  lemma UnchangedStep(s: State, step: C.Step)
    ensures match step
            case Reserve(node, a) => s.ReserveOnNode(node, a).1 != Done ==> C.Next(s, step) == s
            case Expand(id, d) => (s.Expand(id, d).1 != Done ==> C.Next(s, step) == s) && (s.Expand(id, d).1 == Done ==> s.Live(id))
            case Activate(id) => !s.Live(id) ==> C.Next(s, step) == s
            case Release(id) => !s.Live(id) ==> C.Next(s, step) == s
            case _ => true
  {}

  lemma StepCovers(s: State, step: C.Step)
    requires Covered(s) && C.Legal(s, step)
    ensures Covered(C.Next(s, step))
  {
    UnchangedStep(s, step);
    hide Covered, State.ReserveOnNode, State.Expand, State.Activate, State.Release, State.Upsert, State.DeleteNode;
    match step
    case Reserve(node, a) => if s.ReserveOnNode(node, a).1 == Done { ReserveCovers(s, node, a); }
    case Activate(id) => if s.Live(id) { ActivateCovers(s, id); }
    case Release(id) => if s.Live(id) { ReleaseCovers(s, id); }
    case Expand(id, d) => if s.Expand(id, d).1 == Done { ExpandCovers(s, id, d); }
    case Upsert(n) => UpsertCovers(s, n);
    case DeleteNode(node) => DeleteNodeCovers(s, node);
  }

  datatype Step = Ledger(step: C.Step) | Drop(project: Id)

  ghost predicate StepAt(states: seq<State>, steps: seq<Step>, i: nat)
    requires |states| == |steps| + 1 && i < |steps|
  {
    match steps[i]
    case Ledger(step) => C.Legal(states[i], step) && states[i + 1] == C.Next(states[i], step)
    case Drop(project) => states[i + 1] == DropProject(states[i], project).0
  }

  /** With projects being deleted too, no run ever lets live allocations hold more than their node counts. */
  lemma {:induction false} NeverUncovered(states: seq<State>, steps: seq<Step>, n: nat)
    requires |states| == |steps| + 1 && n <= |steps| && Covered(states[0])
    requires forall i :: 0 <= i < |steps| ==> StepAt(states, steps, i)
    ensures Covered(states[n])
  {
    if n > 0 {
      hide Covered, C.Next, C.Legal, DropProject;
      NeverUncovered(states, steps, n - 1);
      assert StepAt(states, steps, n - 1);
      match steps[n - 1]
      case Ledger(step) => StepCovers(states[n - 1], step);
      case Drop(project) => DropCovers(states[n - 1], project);
    }
  }
}
