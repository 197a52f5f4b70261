/** Project budgets: what a project uses, what every operation does to that, and that no run exceeds a budget. */
module Budget {
  import opened Amounts
  import opened Models
  import opened Placement
  import opened Store
  import opened App
  import opened AppInv
  import opened AppSteps
  import opened Moves
  import R = Review
  import C = Conservation

  /** In every dimension that has a budget, growth ends within it. */
  predicate GrowsWithin(budget: Amount, before: Amount, after: Amount) {
    && (budget.cpu > 0 && after.cpu > before.cpu ==> after.cpu <= budget.cpu)
    && (budget.mem > 0 && after.mem > before.mem ==> after.mem <= budget.mem)
    && (budget.disk > 0 && after.disk > before.disk ==> after.disk <= budget.disk)
  }

  predicate UnderBudget(budget: Amount, used: Amount) {
    && (budget.cpu > 0 ==> used.cpu <= budget.cpu)
    && (budget.mem > 0 ==> used.mem <= budget.mem)
    && (budget.disk > 0 ==> used.disk <= budget.disk)
  }

  // ----- operations that cannot make a project use more

  ghost predicate SameOwners(s: State, t: State) {
    && t.workspaces.Keys == s.workspaces.Keys
    && forall id :: id in s.workspaces ==>
         t.workspaces[id].alloc == s.workspaces[id].alloc && t.workspaces[id].project == s.workspaces[id].project
  }

  ghost predicate NoGrowth(s: State, t: State) { SameOwners(s, t) && LiveShrinks(s, t) && t.projects == s.projects }

  /** Under the invariant what a workspace counts for is what its live allocation holds, whatever its status. */
  lemma HeldIsLive(s: State, id: Id)
    requires Inv(s) && id in s.workspaces
    ensures var w := s.workspaces[id];
            Held(s, w) == (if s.Live(w.alloc) then w.size else ZERO) && (s.Live(w.alloc) ==> ZERO.Within(w.size))
  {
    hide C.Conserved, OneOwner, R.Origin;
    assert WsOk(s, id, s.workspaces[id]);
  }

  lemma HeldShrinks(s: State, t: State, id: Id)
    requires Inv(s) && Inv(t) && NoGrowth(s, t) && id in s.workspaces
    ensures Held(t, t.workspaces[id]).Within(Held(s, s.workspaces[id]))
  {
    HeldIsLive(s, id);
    HeldIsLive(t, id);
    LiveSizes(s, id);
    LiveSizes(t, id);
    hide Inv, Held;
  }

  lemma LiveSizes(s: State, id: Id)
    requires Inv(s) && id in s.workspaces
    ensures var w := s.workspaces[id]; s.Live(w.alloc) ==> s.allocs[w.alloc].size == w.size
  {
    hide C.Conserved, OneOwner, R.Origin;
    assert WsOk(s, id, s.workspaces[id]);
  }

  lemma NoGrowthUsesNoMore(s: State, t: State, project: Id)
    requires Inv(s) && Inv(t) && NoGrowth(s, t)
    ensures ProjectUsed(t, project).Within(ProjectUsed(s, project))
  {
    hide Inv, Held, LiveShrinks;
    forall id | id in HeldMap(t, project) ensures HeldMap(t, project)[id].Within(HeldMap(s, project)[id]) {
      HeldShrinks(s, t, id);
    }
    SumMonotone(HeldMap(t, project), HeldMap(s, project));
  }

  lemma OnlyStatusNoGrowth(x: World, y: World, id: Id)
    requires OnlyStatus(x, y, id)
    ensures NoGrowth(x.db, y.db)
  {}

  lemma PutNoGrowth(s: State, t: State, id: Id, w: Workspace)
    requires NoGrowth(s, t) && id in t.workspaces && w.alloc == t.workspaces[id].alloc && w.project == t.workspaces[id].project
    ensures NoGrowth(s, t.PutWorkspace(id, w)) && forall e :: NoGrowth(s, t.PutWorkspace(id, w).AddAudit(e))
  {
    PutOwners(s, t, id, w);
    PutShrinks(s, t, id, w);
    hide SameOwners, LiveShrinks;
  }

  lemma PutOwners(s: State, t: State, id: Id, w: Workspace)
    requires SameOwners(s, t) && id in t.workspaces && w.alloc == t.workspaces[id].alloc && w.project == t.workspaces[id].project
    ensures SameOwners(s, t.PutWorkspace(id, w)) && forall e :: SameOwners(s, t.PutWorkspace(id, w).AddAudit(e))
  {}

  lemma PutShrinks(s: State, t: State, id: Id, w: Workspace)
    requires LiveShrinks(s, t)
    ensures LiveShrinks(s, t.PutWorkspace(id, w)) && forall e :: LiveShrinks(s, t.PutWorkspace(id, w).AddAudit(e))
  {}

  lemma ReleaseNoGrowth(s: State, a: Id)
    ensures NoGrowth(s, s.Release(a).0)
  {
    ReleaseEffect(s, a);
    ReleaseShrinks(s, a);
    hide State.Release, LiveShrinks;
  }

  lemma ActivateNoGrowth(s: State, a: Id)
    ensures NoGrowth(s, s.Activate(a).0)
  {
    ActivateEffect(s, a);
    ActivateShrinks(s, a);
    hide State.Activate, LiveShrinks;
  }

  lemma SameNoGrowth(s: State)
    ensures NoGrowth(s, s)
  {}

  lemma FinishNoGrowth(x: World, id: Id, alloc: Id, launched: bool, approved: bool, now: int)
    ensures NoGrowth(x.db, FinishProvision(x, id, alloc, launched, approved, now).db)
  {
    hide State.Release, State.Activate, NoGrowth;
    var s := x.db;
    SameNoGrowth(s);
    ReleaseNoGrowth(s, alloc);
    ActivateNoGrowth(s, alloc);
    if id in s.workspaces {
      ActivateEffect(s, alloc);
      var w := s.workspaces[id].(updatedAt := now);
      PutNoGrowth(s, s.Activate(alloc).0, id, w.(status := Running));
      ReleaseEffect(s, alloc);
      PutNoGrowth(s, s.Release(alloc).0, id, w.(status := Failed));
      ReleaseCommutes(s, id, w.(status := Failed), alloc);
    }
  }

  lemma ExecuteDestroyNoGrowth(x: World, id: Id, now: int)
    requires id in x.db.workspaces && NIL !in x.db.allocs
    ensures NoGrowth(x.db, ExecuteDestroy(x, id, now).db)
  {
    hide State.Release, NoGrowth;
    var s, w := x.db, x.db.workspaces[id];
    ReleaseNoGrowth(s, w.alloc);
    ReleaseNothing(s);
    ReleaseEffect(s, w.alloc);
    ReleaseCommutes(s, id, w.(status := Destroying, updatedAt := now), w.alloc);
    PutNoGrowth(s, s.Release(w.alloc).0, id, w.(status := Destroyed, updatedAt := now));
    PutTwice(s.Release(w.alloc).0, id, w.(status := Destroying, updatedAt := now), w.(status := Destroyed, updatedAt := now));
  }

  lemma PutTwice(s: State, id: Id, v: Workspace, w: Workspace)
    ensures s.PutWorkspace(id, v).PutWorkspace(id, w) == s.PutWorkspace(id, w)
  {}

  lemma FailStuckNoGrowth(x: World, id: Id, now: int)
    ensures NoGrowth(x.db, FailStuck(x, id, now).db)
  {
    hide State.Release, NoGrowth;
    SameNoGrowth(x.db);
    if id in x.db.workspaces {
      var w := x.db.workspaces[id];
      ReleaseNoGrowth(x.db, w.alloc);
      ReleaseEffect(x.db, w.alloc);
      PutNoGrowth(x.db, x.db, id, w.(status := Failed, updatedAt := now));
      PutNoGrowth(x.db, x.db.Release(w.alloc).0, id, w.(status := Failed, updatedAt := now));
    }
  }

  lemma RestoreNoGrowth(x: World, id: Id, action: string, now: int)
    requires id in x.db.workspaces
    ensures NoGrowth(x.db, RestoreAfterReject(x, id, action, now).db)
  {
    hide RestoredStatus;
    SameNoGrowth(x.db);
    PutNoGrowth(x.db, x.db, id, x.db.workspaces[id].(status := RestoredStatus(x.db, id), updatedAt := now));
  }

  lemma RejectResizeNoGrowth(x: World, id: Id, actor: Actor, now: int)
    ensures NoGrowth(x.db, RejectResize(x, id, actor, now).0.db)
  {
    hide NoGrowth;
    SameNoGrowth(x.db);
    if id in x.db.workspaces {
      PutNoGrowth(x.db, x.db, id, x.db.workspaces[id].(pending := ZERO, resizePending := false, updatedAt := now));
    }
  }

  lemma RequestDestroyNoGrowth(x: World, id: Id, actor: Actor, now: int)
    requires NIL !in x.db.allocs
    ensures NoGrowth(x.db, RequestDestroy(x, id, actor, now).0.db)
  {
    hide ExecuteDestroy, NoGrowth;
    SameNoGrowth(x.db);
    if !actor.platformAdmin {
      ReviewIsQuiet(x, id, actor, now);
      OnlyStatusNoGrowth(x, RequestDestroy(x, id, actor, now).0, id);
    } else if id in x.db.workspaces {
      ExecuteDestroyNoGrowth(x, id, now);
    }
  }

  lemma LedgerNoGrowth(s: State, op: Op)
    requires op.OpUpsertNode? || op.OpDeleteNode?
    ensures NoGrowth(s, Do(World(s, map[]), op, 0).db)
  {
    if op.OpUpsertNode? {
      UpsertEffect(s, op.n);
    } else {
      DeleteNodeEffect(s, op.node);
    }
    hide State.Upsert, State.DeleteNode;
  }

  // ----- operations that make one workspace count for more

  ghost predicate SameEntry(s: State, t: State, a: Id) {
    (a in t.allocs <==> a in s.allocs) && (a in s.allocs ==> t.allocs[a] == s.allocs[a])
  }

  /** Only workspace id and its allocation change. */
  ghost predicate OnlyHeld(s: State, t: State, id: Id) {
    && id in t.workspaces && t.workspaces == s.workspaces[id := t.workspaces[id]]
    && (forall j :: j in s.workspaces && j != id ==> SameEntry(s, t, s.workspaces[j].alloc))
  }

  function Share(s: State, id: Id, project: Id): Amount {
    if id in s.workspaces && s.workspaces[id].project == project then Held(s, s.workspaces[id]) else ZERO
  }

  lemma SameShare(s: State, t: State, j: Id, project: Id)
    requires j in s.workspaces && j in t.workspaces && t.workspaces[j] == s.workspaces[j] && SameEntry(s, t, s.workspaces[j].alloc)
    ensures Share(t, j, project) == Share(s, j, project)
  {}

  lemma HeldMapShares(s: State, project: Id)
    ensures HeldMap(s, project).Keys == s.workspaces.Keys
    ensures forall j :: j in s.workspaces ==> HeldMap(s, project)[j] == Share(s, j, project)
  {
    hide Held;
  }

  lemma MapsAgree(m: map<Id, Amount>, n: map<Id, Amount>, id: Id)
    requires n.Keys == m.Keys + {id} && forall j :: j in m && j != id ==> n[j] == m[j]
    ensures n == m[id := n[id]]
  {}

  lemma HeldChanges(s: State, t: State, id: Id, project: Id)
    requires OnlyHeld(s, t, id)
    ensures ProjectUsed(t, project) == ProjectUsed(s, project).Minus(Share(s, id, project)).Plus(Share(t, id, project))
  {
    hide SameEntry, Share, HeldMap, Sum;
    var m, n := HeldMap(s, project), HeldMap(t, project);
    HeldMapShares(s, project);
    HeldMapShares(t, project);
    forall j | j in s.workspaces && j != id ensures n[j] == m[j] {
      SameShare(s, t, j, project);
    }
    assert id in m.Keys <==> id in s.workspaces.Keys;
    assert n.Keys == t.workspaces.Keys && id in t.workspaces.Keys && n[id] == Share(t, id, project);
    MapsAgree(m, n, id);
    NoShare(s, id, project);
    SumUpdate(m, id, n[id]);
  }

  lemma NoShare(s: State, id: Id, project: Id)
    ensures id !in s.workspaces ==> Share(s, id, project) == ZERO
  {}

  lemma TakeEntries(s: State, node: Id, a: Allocation)
    requires node in s.nodes
    ensures forall b :: b != a.id ==> SameEntry(s, s.Take(node, a), b)
  {}

  lemma TakenShare(s: State, id: Id, w: Workspace, node: Id, a: Allocation, project: Id)
    requires node in s.nodes && w.alloc == a.id && w.status == Provisioning
    ensures Share(s.Take(node, a).PutWorkspace(id, w), id, project) == if w.project == project then a.size else ZERO
  {}

  /** A new reservation for a workspace that held nothing adds exactly its size to its project. */
  lemma ReservedUse(s: State, id: Id, w: Workspace, node: Id, a: Allocation, draw: Draw, project: Id)
    requires FreshDraw(s, draw) && node in s.nodes && a.id == draw.alloc && w.alloc == draw.alloc && w.status == Provisioning
    requires id in s.workspaces ==> s.workspaces[id].status == Requested
    ensures ProjectUsed(s.Take(node, a).PutWorkspace(id, w), project)
            == ProjectUsed(s, project).Plus(if w.project == project then a.size else ZERO)
  {
    var t := s.Take(node, a).PutWorkspace(id, w);
    TakeEntries(s, node, a);
    TakeEffect(s, node, a);
    TakenShare(s, id, w, node, a, project);
    hide State.Take, SameEntry, ProjectUsed;
    forall j | j in s.workspaces && j != id ensures SameEntry(s, t, s.workspaces[j].alloc) {
      assert SameEntry(s, s.Take(node, a), s.workspaces[j].alloc);
      PutEntries(s.Take(node, a), id, w, s.workspaces[j].alloc);
      EntryChain(s, s.Take(node, a), t, s.workspaces[j].alloc);
    }
    HeldChanges(s, t, id, project);
  }

  lemma PutEntries(s: State, id: Id, w: Workspace, a: Id)
    ensures SameEntry(s, s.PutWorkspace(id, w), a)
  {}

  lemma EntryChain(s: State, t: State, u: State, a: Id)
    requires SameEntry(s, t, a) && SameEntry(t, u, a)
    ensures SameEntry(s, u, a)
  {}

  /** A reservation that is given back leaves every node as it was. */
  lemma GivenBack(s: State, node: Id, a: Allocation, project: Id)
    requires Inv(s) && node in s.nodes && a.id !in s.allocs && forall id :: id in s.workspaces ==> s.workspaces[id].alloc != a.id
    ensures var t := s.Take(node, a).Release(a.id).0;
            && t.nodes == s.nodes && t.workspaces == s.workspaces && t.projects == s.projects
            && ProjectUsed(t, project) == ProjectUsed(s, project)
  {
    var t := s.Take(node, a).Release(a.id).0;
    C.UsedNonNegative(s, node);
    GivenBackNodes(s, node, a);
    hide Inv, State.Take, State.Release;
    UnownedEntry(s, a.id, a.(node := node, state := Released), project);
  }

  /** An allocation that no workspace owns counts for nobody. */
  lemma UnownedEntry(s: State, a: Id, entry: Allocation, project: Id)
    requires forall id :: id in s.workspaces ==> s.workspaces[id].alloc != a
    ensures ProjectUsed(s.(allocs := s.allocs[a := entry]), project) == ProjectUsed(s, project)
  {
    assert HeldMap(s.(allocs := s.allocs[a := entry]), project) == HeldMap(s, project);
  }

  lemma GivenBackNodes(s: State, node: Id, a: Allocation)
    requires node in s.nodes && s.nodes[node].used.NonNegative()
    ensures var t := s.Take(node, a).Release(a.id).0;
            t.nodes == s.nodes && t == s.(allocs := s.allocs[a.id := a.(node := node, state := Released)])
  {
    var n := s.nodes[node];
    assert n.used.Plus(a.size).Minus(a.size).Floored() == n.used;
    assert n.(used := n.used.Plus(a.size)).(used := n.used) == n;
    assert s.nodes[node := n] == s.nodes;
  }

  /** What creating does to nodes and to the use of any project. */
  ghost predicate CreatedAs(s: State, t: State, r: Outcome, grows: bool, d: Draft, size: Amount, project: Id) {
    if r != Done then t.nodes == s.nodes && t.workspaces == s.workspaces && ProjectUsed(t, project) == ProjectUsed(s, project)
    else ProjectUsed(t, project) == ProjectUsed(s, project).Plus(if grows && d.project == project then size else ZERO)
  }

  lemma ProvisionUses(s: State, d: Draft, plan: Plan, arch: string, actor: Actor, draw: Draw, now: int, project: Id)
    requires Inv(s) && FreshDraw(s, draw)
    ensures var (t, r) := ProvisionNew(s, d, plan, arch, actor, draw, now); CreatedAs(s, t, r, true, d, plan.size, project)
  {
    hide Inv, State.Take, State.Release, ProjectUsed, Candidate;
    var a := Allocation(draw.alloc, d.project, draw.place, plan.size, arch, Reserved);
    if Best(s.nodes, Query(arch, plan.size, false), draw.place) {
      TakeEffect(s, draw.place, a);
      GivenBack(s, draw.place, a, project);
      var w := NewWorkspace(d, plan, s.Take(draw.place, a).nodes[draw.place].arch, actor.id, draw.place, draw.alloc, Provisioning, now);
      ReservedUse(s, draw.ws, w, draw.place, a, draw, project);
    }
  }

  lemma RequestedShare(s: State, id: Id, w: Workspace, project: Id)
    requires w.status == Requested
    ensures Share(s.PutWorkspace(id, w), id, project) == ZERO
  {}

  lemma LogUses(s: State, e: Entry, project: Id)
    ensures ProjectUsed(s.AddAudit(e), project) == ProjectUsed(s, project)
  {
    hide Sum;
    assert HeldMap(s.AddAudit(e), project) == HeldMap(s, project);
  }

  lemma PutRequestedUses(s: State, id: Id, w: Workspace, project: Id)
    requires id !in s.workspaces && w.status == Requested
    ensures ProjectUsed(s.PutWorkspace(id, w), project) == ProjectUsed(s, project)
  {
    var t := s.PutWorkspace(id, w);
    RequestedShare(s, id, w, project);
    NoShare(s, id, project);
    hide SameEntry, Share, ProjectUsed;
    forall j | j in s.workspaces && j != id ensures SameEntry(s, t, s.workspaces[j].alloc) {
      PutEntries(s, id, w, s.workspaces[j].alloc);
    }
    HeldChanges(s, t, id, project);
  }

  lemma RequestUses(s: State, d: Draft, plan: Plan, arch: string, actor: Actor, draw: Draw, now: int, project: Id)
    requires FreshDraw(s, draw)
    ensures var (t, r) := RequestWorkspace(s, d, plan, arch, actor, draw, now); CreatedAs(s, t, r, false, d, plan.size, project)
  {
    hide ProjectUsed;
    var w := NewWorkspace(d, plan, arch, actor.id, NIL, NIL, Requested, now);
    PutRequestedUses(s, draw.ws, w, project);
    LogUses(s.PutWorkspace(draw.ws, w), Entry(draw.ws, None, "workspace.request", None), project);
  }

  /**
   Creating: a project admin's request adds exactly the resolved size to the project and nothing to others; a
   developer's adds nothing yet; one that fails, even after reserving, leaves every node and every project's use alone.
   */
  lemma CreateUsesExactly(s: State, d: Draft, actor: Actor, draw: Draw, now: int, project: Id)
    requires Inv(s) && FreshDraw(s, draw)
    ensures var (t, r) := CreateWorkspace(s, d, actor, draw, now);
            && (r == Done ==> ResolveSpec(d.planName, d.size).Some?)
            && CreatedAs(s, t, r, actor.CanApprove(), d,
                         if r == Done then ResolveSpec(d.planName, d.size).value.size else ZERO, project)
  {
    hide Inv, FreshDraw, CheckBudget, Ready, NormalizeArch, ResolveSpec, ProvisionNew, RequestWorkspace, ProjectUsed;
    var plan := ResolveSpec(d.planName, d.size);
    if plan.Some? {
      ProvisionUses(s, d, plan.value, NormalizeArch(d.arch), actor, draw, now, project);
      RequestUses(s, d, plan.value, NormalizeArch(d.arch), actor, draw, now, project);
    }
  }

  /** Approving adds exactly the workspace's size to its project. */
  lemma ApproveUsesExactly(s: State, id: Id, actor: Actor, draw: Draw, now: int, project: Id)
    requires Inv(s) && FreshDraw(s, draw)
    ensures var (t, r) := ApproveWorkspace(s, id, actor, draw, now);
            if r != Done then t == s
            else
              && id in s.workspaces
              && var w := s.workspaces[id];
                 ProjectUsed(t, project) == ProjectUsed(s, project).Plus(if w.project == project then w.Spec().size else ZERO)
  {
    hide Inv, State.Take, ProjectUsed, Candidate, CheckBudget, Ready, Workspace.Spec;
    if id in s.workspaces && s.workspaces[id].status == Requested {
      var was := s.workspaces[id];
      var a := Allocation(draw.alloc, was.project, draw.place, was.Spec().size, NormalArch(was.arch), Reserved);
      if Best(s.nodes, Query(NormalArch(was.arch), was.Spec().size, false), draw.place) {
        TakeEffect(s, draw.place, a);
        var w := was.(arch := s.Take(draw.place, a).nodes[draw.place].arch, node := draw.place, alloc := draw.alloc,
                      status := Provisioning, updatedAt := now);
        ReservedUse(s, id, w, draw.place, a, draw, project);
      }
    }
  }

  lemma LiveShare(s: State, id: Id, project: Id)
    requires Inv(s) && id in s.workspaces && s.Live(s.workspaces[id].alloc)
    ensures Share(s, id, project) == if s.workspaces[id].project == project then s.workspaces[id].size else ZERO
  {
    HeldIsLive(s, id);
    hide Inv, Held;
  }

  lemma OnlyOneOwner(s: State, id: Id, j: Id)
    requires Inv(s) && id in s.workspaces && j in s.workspaces && j != id && s.workspaces[id].alloc != NIL
    ensures s.workspaces[j].alloc != s.workspaces[id].alloc
  {
    hide C.Conserved, AllOk;
  }

  lemma ExpandEntries(s: State, a: Id, d: Amount, id: Id, w: Workspace, e: Entry)
    requires s.Expand(a, d).1 == Done
    ensures var t := s.Expand(a, d).0.PutWorkspace(id, w).AddAudit(e);
            t.workspaces == s.workspaces[id := w] && t.Live(a) && forall b :: b != a ==> SameEntry(s, t, b)
  {
    ExpandEffect(s, a, d);
    hide State.Expand;
  }

  lemma AppliedUses(s: State, id: Id, now: int, project: Id)
    requires Inv(s) && id in s.workspaces && s.workspaces[id].resizePending && s.Live(s.workspaces[id].alloc)
    requires s.Expand(s.workspaces[id].alloc, s.workspaces[id].pending.Minus(s.workspaces[id].size)).1 == Done
    ensures var w := s.workspaces[id];
            var t := s.Expand(w.alloc, w.pending.Minus(w.size)).0.PutWorkspace(id, Resized(w, now))
                      .AddAudit(Entry(id, None, "workspace.resize.approve", None));
            ProjectUsed(t, project) == ProjectUsed(s, project).Plus(if w.project == project then w.pending.Minus(w.size) else ZERO)
  {
    hide Inv, State.Expand, ProjectUsed, Share, SameEntry, EffectiveKind;
    var w := s.workspaces[id];
    var e := Entry(id, None, "workspace.resize.approve", None);
    var t := s.Expand(w.alloc, w.pending.Minus(w.size)).0.PutWorkspace(id, Resized(w, now)).AddAudit(e);
    PendingFacts(s, id);
    ExpandEntries(s, w.alloc, w.pending.Minus(w.size), id, Resized(w, now), e);
    AppliedResizeKeepsInv(s, id, now);
    forall j | j in s.workspaces && j != id ensures SameEntry(s, t, s.workspaces[j].alloc) {
      OnlyOneOwner(s, id, j);
    }
    HeldChanges(s, t, id, project);
    LiveShare(s, id, project);
    LiveShare(t, id, project);
  }

  /** An approved resize changes the use of its project by exactly the difference; one that fails changes nothing. */
  lemma ResizeUsesExactly(x: World, id: Id, actor: Actor, fault: bool, now: int, project: Id)
    requires Inv(x.db) && !FailingDowngrade(x, id, fault)
    ensures var (y, r) := ApproveResize(x, id, actor, fault, now);
            if r != Done then y == x
            else
              && id in x.db.workspaces
              && var w := x.db.workspaces[id];
                 ProjectUsed(y.db, project) == ProjectUsed(x.db, project).Plus(if w.project == project then w.pending.Minus(w.size) else ZERO)
  {
    hide Inv, Ready, CheckBudget, State.Expand, EffectiveKind, ProjectUsed;
    if id in x.db.workspaces && x.db.workspaces[id].resizePending {
      var s, w := x.db, x.db.workspaces[id];
      SpecIsSize(s, id);
      var delta := w.pending.Minus(w.size);
      if s.Expand(w.alloc, delta).1 == Done {
        ExpandEffect(s, w.alloc, delta);
        PendingFacts(s, id);
        RollbackRestores(s, w.alloc, delta);
        AppliedUses(s, id, now, project);
      }
    }
  }

  // ----- no operation exceeds a budget

  lemma CheckedGrows(s: State, project: Id, extra: Amount, p: Id)
    requires p in s.projects && CheckBudget(s, project, extra) == Done
    ensures GrowsWithin(s.projects[p].budget, ProjectUsed(s, p), ProjectUsed(s, p).Plus(if project == p then extra else ZERO))
  {
    hide ProjectUsed;
  }

  lemma CreateChecked(s: State, d: Draft, actor: Actor, draw: Draw, now: int)
    ensures var r, plan := CreateWorkspace(s, d, actor, draw, now).1, ResolveSpec(d.planName, d.size);
            r == Done ==> plan.Some? && CheckBudget(s, d.project, plan.value.size) == Done
  {
    hide CheckBudget, Ready, NormalizeArch, ResolveSpec, ProvisionNew, RequestWorkspace;
  }

  lemma CreateGrowsWithin(s: State, d: Draft, actor: Actor, draw: Draw, now: int, p: Id)
    requires Inv(s) && FreshDraw(s, draw) && p in s.projects
    ensures GrowsWithin(s.projects[p].budget, ProjectUsed(s, p), ProjectUsed(CreateWorkspace(s, d, actor, draw, now).0, p))
  {
    hide Inv, FreshDraw, CreateWorkspace, CheckBudget, ResolveSpec, ProjectUsed;
    CreateUsesExactly(s, d, actor, draw, now, p);
    CreateChecked(s, d, actor, draw, now);
    var plan := ResolveSpec(d.planName, d.size);
    if CreateWorkspace(s, d, actor, draw, now).1 == Done {
      CheckedGrows(s, d.project, plan.value.size, p);
    }
  }

  lemma ApproveChecked(s: State, id: Id, actor: Actor, draw: Draw, now: int)
    ensures ApproveWorkspace(s, id, actor, draw, now).1 == Done ==>
              id in s.workspaces && CheckBudget(s, s.workspaces[id].project, s.workspaces[id].Spec().size) == Done
  {
    hide CheckBudget, Ready, Reserve, Workspace.Spec;
  }

  lemma ApproveGrowsWithin(s: State, id: Id, actor: Actor, draw: Draw, now: int, p: Id)
    requires Inv(s) && FreshDraw(s, draw) && p in s.projects
    ensures GrowsWithin(s.projects[p].budget, ProjectUsed(s, p), ProjectUsed(ApproveWorkspace(s, id, actor, draw, now).0, p))
  {
    ApproveUsesExactly(s, id, actor, draw, now, p);
    ApproveChecked(s, id, actor, draw, now);
    hide Inv, FreshDraw, ApproveWorkspace, CheckBudget, ProjectUsed, Workspace.Spec;
    if id in s.workspaces && CheckBudget(s, s.workspaces[id].project, s.workspaces[id].Spec().size) == Done {
      CheckedGrows(s, s.workspaces[id].project, s.workspaces[id].Spec().size, p);
    }
  }

  lemma ResizeChecked(x: World, id: Id, actor: Actor, fault: bool, now: int)
    requires Inv(x.db)
    ensures ApproveResize(x, id, actor, fault, now).1 == Done ==>
              && id in x.db.workspaces
              && var w := x.db.workspaces[id];
                 w.pending.Minus(w.size).Within(ZERO) || CheckBudget(x.db, w.project, w.pending.Minus(w.size)) == Done
  {
    hide Inv, Ready, CheckBudget, State.Expand, EffectiveKind;
    if id in x.db.workspaces && x.db.workspaces[id].resizePending {
      SpecIsSize(x.db, id);
      var w := x.db.workspaces[id];
      if x.db.Expand(w.alloc, w.pending.Minus(w.size)).1 == Done {
        ExpandEffect(x.db, w.alloc, w.pending.Minus(w.size));
        PendingFacts(x.db, id);
      }
    }
  }

  lemma ShrinkGrowsWithin(budget: Amount, used: Amount, d: Amount)
    requires d.Within(ZERO)
    ensures GrowsWithin(budget, used, used.Plus(d)) && GrowsWithin(budget, used, used.Plus(ZERO)) && GrowsWithin(budget, used, used)
  {}

  lemma ResizeGrowsWithin(x: World, id: Id, actor: Actor, fault: bool, now: int, p: Id)
    requires Inv(x.db) && !FailingDowngrade(x, id, fault) && p in x.db.projects
    ensures GrowsWithin(x.db.projects[p].budget, ProjectUsed(x.db, p), ProjectUsed(ApproveResize(x, id, actor, fault, now).0.db, p))
  {
    hide Inv, ApproveResize, CheckBudget, ProjectUsed, FailingDowngrade, GrowsWithin;
    ResizeUsesExactly(x, id, actor, fault, now, p);
    ResizeChecked(x, id, actor, fault, now);
    var budget, used := x.db.projects[p].budget, ProjectUsed(x.db, p);
    ShrinkGrowsWithin(budget, used, ZERO);
    if ApproveResize(x, id, actor, fault, now).1 == Done {
      var w := x.db.workspaces[id];
      var d := w.pending.Minus(w.size);
      if d.Within(ZERO) {
        ShrinkGrowsWithin(budget, used, d);
      } else {
        CheckedGrows(x.db, w.project, d, p);
      }
    }
  }

  lemma LaterGrowth(budget: Amount, a: Amount, b: Amount, c: Amount)
    requires b.Within(a) && GrowsWithin(budget, b, c)
    ensures GrowsWithin(budget, a, c) && GrowsWithin(budget, a, b)
  {}

  function Asked(x: World, id: Id, target: Amount, kind: ResizeKind, now: int): World
    requires id in x.db.workspaces
  {
    x.(db := x.db.PutWorkspace(id, x.db.workspaces[id].(pending := target, resizePending := true, resizeKind := kind, updatedAt := now))
                 .AddAudit(Entry(id, None, "workspace.resize.request", None)))
  }

  lemma AskedUses(x: World, id: Id, target: Amount, kind: ResizeKind, now: int, p: Id)
    requires Inv(x.db) && id in x.db.workspaces && !x.db.workspaces[id].resizePending && x.db.workspaces[id].status != Requested
    requires ValidSpec(target) && ClassifyResize(x.db.workspaces[id].size, target) == (kind, Done)
    ensures var y := Asked(x, id, target, kind, now);
            Inv(y.db) && y.db.projects == x.db.projects && ProjectUsed(y.db, p).Within(ProjectUsed(x.db, p))
  {
    hide Inv, ValidSpec, ClassifyResize, ProjectUsed, NoGrowth;
    var w := x.db.workspaces[id].(pending := target, resizePending := true, resizeKind := kind, updatedAt := now);
    RequestResizePutKeepsInv(x, id, target, kind, now);
    SameNoGrowth(x.db);
    PutNoGrowth(x.db, x.db, id, w);
    NoGrowthUsesNoMore(x.db, Asked(x, id, target, kind, now).db, p);
  }

  lemma AskedGrowsWithin(x: World, id: Id, target: Amount, kind: ResizeKind, actor: Actor, fault: bool, now: int, p: Id)
    requires Inv(x.db) && id in x.db.workspaces && !x.db.workspaces[id].resizePending && x.db.workspaces[id].status != Requested
    requires ValidSpec(target) && ClassifyResize(x.db.workspaces[id].size, target) == (kind, Done) && p in x.db.projects
    ensures var y := Asked(x, id, target, kind, now);
            var budget, used := x.db.projects[p].budget, ProjectUsed(x.db, p);
            && GrowsWithin(budget, used, ProjectUsed(y.db, p))
            && (kind == Upgrade ==> GrowsWithin(budget, used, ProjectUsed(ApproveResize(y, id, actor, fault, now).0.db, p)))
  {
    hide Inv, ValidSpec, ClassifyResize, ProjectUsed, ApproveResize, GrowsWithin;
    AskedUses(x, id, target, kind, now, p);
    var y := Asked(x, id, target, kind, now);
    var budget, used, asked := x.db.projects[p].budget, ProjectUsed(x.db, p), ProjectUsed(y.db, p);
    ShrinkGrowsWithin(budget, asked, ZERO);
    LaterGrowth(budget, used, asked, asked);
    if kind == Upgrade {
      ResizeGrowsWithin(y, id, actor, fault, now, p);
      LaterGrowth(budget, used, asked, ProjectUsed(ApproveResize(y, id, actor, fault, now).0.db, p));
    }
  }

  /** A resize request writes what Asked does, unless it fails; an admin's upgrade is approved on the spot. */
  lemma RequestResizeCases(x: World, id: Id, actor: Actor, size: Amount, fault: bool, now: int)
    requires id in x.db.workspaces ==> x.db.workspaces[id].Spec().size == x.db.workspaces[id].size
    ensures var y := RequestResize(x, id, actor, size, fault, now).0;
            var target := ResolveSpec("custom", size);
            y == x ||
              (&& id in x.db.workspaces && !x.db.workspaces[id].resizePending && x.db.workspaces[id].status != Requested && target.Some?
               && var (kind, r) := ClassifyResize(x.db.workspaces[id].size, target.value.size);
                  var asked := Asked(x, id, target.value.size, kind, now);
                  r == Done && (y == asked || (kind == Upgrade && y == ApproveResize(asked, id, actor, fault, now).0)))
  {
    hide Ready, CheckBudget, ApproveResize, ResolveSpec, ClassifyResize, Workspace.Spec, MayTouch;
  }

  lemma RequestResizeGrowsWithin(x: World, id: Id, actor: Actor, size: Amount, fault: bool, now: int, p: Id)
    requires Inv(x.db) && p in x.db.projects
    ensures GrowsWithin(x.db.projects[p].budget, ProjectUsed(x.db, p), ProjectUsed(RequestResize(x, id, actor, size, fault, now).0.db, p))
  {
    hide Inv, ApproveResize, RequestResize, ResolveSpec, ValidSpec, ClassifyResize, ProjectUsed, GrowsWithin, Asked, Workspace.Spec;
    if id in x.db.workspaces {
      SpecIsSize(x.db, id);
    }
    RequestResizeCases(x, id, actor, size, fault, now);
    ShrinkGrowsWithin(x.db.projects[p].budget, ProjectUsed(x.db, p), ZERO);
    if RequestResize(x, id, actor, size, fault, now).0 != x {
      var target := ResolveSpec("custom", size).value.size;
      AskedGrowsWithin(x, id, target, ClassifyResize(x.db.workspaces[id].size, target).0, actor, fault, now, p);
    }
  }

  lemma DestroyNoGrowth(x: World, op: Op, now: int)
    requires NIL !in x.db.allocs
    requires op.OpRequestDestroy? || op.OpApproveDestroyProject? || op.OpApproveDestroyPlatform?
             || op.OpRejectDestroyProject? || op.OpRejectDestroyPlatform? || op.OpDestroy?
    ensures NoGrowth(x.db, Do(x, op, now).db)
  {
    hide NoGrowth, ExecuteDestroy, RestoreAfterReject, RequestDestroy, ApproveDestroyProject;
    SameNoGrowth(x.db);
    RequestDestroyNoGrowth(x, op.id, op.actor, now);
    ApprovalIsQuiet(x, op.id, op.actor, now);
    OnlyStatusNoGrowth(x, ApproveDestroyProject(x, op.id, op.actor, now).0, op.id);
    if op.id in x.db.workspaces {
      ExecuteDestroyNoGrowth(x, op.id, now);
      RestoreNoGrowth(x, op.id, "workspace.destroy.reject_project", now);
      RestoreNoGrowth(x, op.id, "workspace.destroy.reject_platform", now);
    }
  }

  predicate MayGrow(op: Op) { op.OpCreate? || op.OpApprove? || op.OpRequestResize? || op.OpApproveResize? }

  lemma StatusNoGrowth(x: World, op: Op, now: int)
    requires NIL !in x.db.allocs && (op.OpReject? || op.OpStop? || op.OpStart? || op.OpWake? || op.OpSuspendIdle? || op.OpHealth?)
    ensures NoGrowth(x.db, Do(x, op, now).db)
  {
    hide NoGrowth, OnlyStatus, RejectWorkspace, Stop, Start, Wake, SuspendIdle, CheckHealth;
    match op {
      case OpReject(id, actor) => HealthIsQuiet(x, id, actor, now);
      case OpStop(id, actor) => PowerIsQuiet(x, id, actor, now);
      case OpStart(id, actor) => PowerIsQuiet(x, id, actor, now);
      case OpWake(id) => IdleIsQuiet(x, id, 0, now);
      case OpSuspendIdle(id, hours) => IdleIsQuiet(x, id, hours, now);
      case OpHealth(id) => HealthIsQuiet(x, id, Actor(NIL, false, None), now);
    }
    OnlyStatusNoGrowth(x, Do(x, op, now), op.id);
  }

  lemma OthersNoGrowth(x: World, op: Op, now: int)
    requires NIL !in x.db.allocs && !MayGrow(op)
    ensures NoGrowth(x.db, Do(x, op, now).db)
  {
    hide NoGrowth, OnlyStatus, ExecuteDestroy, RestoreAfterReject, RequestDestroy, ApproveDestroyProject, RejectWorkspace, FinishProvision,
      RejectResize, Stop, Start, Wake, SuspendIdle, CheckHealth, FailStuck, State.Release, State.Upsert, State.DeleteNode;
    match op
    case OpReject(id, actor) => StatusNoGrowth(x, op, now);
    case OpFinishProvision(id, alloc, launched, approved) => FinishNoGrowth(x, id, alloc, launched, approved, now);
    case OpRejectResize(id, actor) => RejectResizeNoGrowth(x, id, actor, now);
    case OpStop(id, actor) => StatusNoGrowth(x, op, now);
    case OpStart(id, actor) => StatusNoGrowth(x, op, now);
    case OpWake(id) => StatusNoGrowth(x, op, now);
    case OpSuspendIdle(id, hours) => StatusNoGrowth(x, op, now);
    case OpHealth(id) => StatusNoGrowth(x, op, now);
    case OpFailStuck(id) => FailStuckNoGrowth(x, id, now);
    case OpReleaseOrphan(alloc) => ReleaseNoGrowth(x.db, alloc); SameNoGrowth(x.db);
    case OpLog(entry) => LogNoGrowth(x.db, entry);
    case OpUpsertNode(n) => LedgerNoGrowth(x.db, op);
    case OpDeleteNode(node) => LedgerNoGrowth(x.db, op);
    case _ => DestroyNoGrowth(x, op, now);
  }

  lemma LogNoGrowth(s: State, e: Entry)
    ensures NoGrowth(s, s.AddAudit(e))
  {}

  lemma InvHasNoNil(s: State)
    requires Inv(s)
    ensures NIL !in s.allocs
  {
    hide C.Conserved, OneOwner, AllOk;
  }

  lemma NoGrowthGrowsWithin(s: State, t: State, p: Id)
    requires Inv(s) && Inv(t) && NoGrowth(s, t) && p in s.projects
    ensures GrowsWithin(s.projects[p].budget, ProjectUsed(s, p), ProjectUsed(t, p))
  {
    NoGrowthUsesNoMore(s, t, p);
    hide Inv, NoGrowth, ProjectUsed;
  }

  /** No operation pushes any project above its budget in any dimension. */
  lemma EveryOpStaysInBudget(x: World, op: Op, now: int, p: Id)
    requires Inv(x.db) && Legal(x, op) && p in x.db.projects
    ensures GrowsWithin(x.db.projects[p].budget, ProjectUsed(x.db, p), ProjectUsed(Do(x, op, now).db, p))
  {
    hide Inv, ProjectUsed, GrowsWithin, CreateWorkspace, ApproveWorkspace, RequestResize, ApproveResize, FreshDraw;
    match op
    case OpCreate(draft, actor, draw) => CreateGrowsWithin(x.db, draft, actor, draw, now, p);
    case OpApprove(id, actor, draw) => ApproveGrowsWithin(x.db, id, actor, draw, now, p);
    case OpRequestResize(id, actor, size, fault) => RequestResizeGrowsWithin(x, id, actor, size, fault, now, p);
    case OpApproveResize(id, actor, fault) => ResizeGrowsWithin(x, id, actor, fault, now, p);
    case _ =>
      InvHasNoNil(x.db);
      OthersNoGrowth(x, op, now);
      DoKeepsInv(x, op, now);
      hide Do, Legal;
      NoGrowthGrowsWithin(x.db, Do(x, op, now).db, p);
  }

  lemma ProjectsStay(x: World, op: Op, now: int)
    requires Inv(x.db) && Legal(x, op)
    ensures Do(x, op, now).db.projects == x.db.projects
  {
    InvHasNoNil(x.db);
    hide Inv, CreateWorkspace, ApproveWorkspace, RequestResize, ApproveResize, FreshDraw, NoGrowth;
    match op
    case OpCreate(draft, actor, draw) => CreateKeepsProjects(x.db, draft, actor, draw, now);
    case OpApprove(id, actor, draw) => ApproveKeepsProjects(x.db, id, actor, draw, now);
    case OpRequestResize(id, actor, size, fault) => RequestResizeKeepsProjects(x, id, actor, size, fault, now);
    case OpApproveResize(id, actor, fault) => ResizeKeepsProjects(x, id, actor, fault, now);
    case _ =>
      OthersNoGrowth(x, op, now);
      hide Do, Legal;
      NoGrowthKeepsProjects(x.db, Do(x, op, now).db);
  }

  lemma NoGrowthKeepsProjects(s: State, t: State)
    requires NoGrowth(s, t)
    ensures t.projects == s.projects
  {}

  lemma CreateKeepsProjects(s: State, d: Draft, actor: Actor, draw: Draw, now: int)
    ensures CreateWorkspace(s, d, actor, draw, now).0.projects == s.projects
  {
    hide CheckBudget, Ready, NormalizeArch, ResolveSpec;
    var plan := ResolveSpec(d.planName, d.size);
    if plan.Some? && draw.place in s.nodes {
      var a := Allocation(draw.alloc, d.project, draw.place, plan.value.size, NormalizeArch(d.arch), Reserved);
      TakeEffect(s, draw.place, a);
      ReleaseEffect(s.Take(draw.place, a), draw.alloc);
      hide State.Take, State.Release;
    }
  }

  lemma ApproveKeepsProjects(s: State, id: Id, actor: Actor, draw: Draw, now: int)
    ensures ApproveWorkspace(s, id, actor, draw, now).0.projects == s.projects
  {
    hide CheckBudget, Ready;
  }

  lemma ExpandKeepsProjects(s: State, a: Id, d: Amount)
    ensures s.Expand(a, d).0.projects == s.projects
  {}

  lemma ResizeKeepsProjects(x: World, id: Id, actor: Actor, fault: bool, now: int)
    ensures ApproveResize(x, id, actor, fault, now).0.db.projects == x.db.projects
  {
    hide CheckBudget, Ready, State.Expand, EffectiveKind, Workspace.Spec;
    if id in x.db.workspaces {
      var w := x.db.workspaces[id];
      var d := w.pending.Minus(w.Spec().size);
      ExpandKeepsProjects(x.db, w.alloc, d);
      var t := x.db.Expand(w.alloc, d).0;
      ExpandKeepsProjects(t, w.alloc, d);
      ExpandKeepsProjects(t, w.alloc, d.Neg());
    }
  }

  lemma RequestResizeKeepsProjects(x: World, id: Id, actor: Actor, size: Amount, fault: bool, now: int)
    requires Inv(x.db)
    ensures RequestResize(x, id, actor, size, fault, now).0.db.projects == x.db.projects
  {
    hide Inv, ApproveResize, RequestResize, ResolveSpec, ClassifyResize, Workspace.Spec;
    if id in x.db.workspaces {
      SpecIsSize(x.db, id);
    }
    RequestResizeCases(x, id, actor, size, fault, now);
    if RequestResize(x, id, actor, size, fault, now).0 != x {
      var target := ResolveSpec("custom", size).value.size;
      ResizeKeepsProjects(Asked(x, id, target, ClassifyResize(x.db.workspaces[id].size, target).0, now), id, actor, fault, now);
    }
  }

  lemma StaysUnder(budget: Amount, before: Amount, after: Amount)
    requires UnderBudget(budget, before) && GrowsWithin(budget, before, after)
    ensures UnderBudget(budget, after)
  {}

  /** Project p is registered as terms and uses no more than its budget. */
  ghost predicate Solvent(s: State, p: Id, terms: Project) {
    p in s.projects && s.projects[p] == terms && UnderBudget(terms.budget, ProjectUsed(s, p))
  }

  lemma StaysSolvent(x: World, op: Op, now: int, p: Id, terms: Project)
    requires Inv(x.db) && Legal(x, op) && Solvent(x.db, p, terms)
    ensures Solvent(Do(x, op, now).db, p, terms)
  {
    hide Inv, Do, Legal, ProjectUsed, UnderBudget, GrowsWithin;
    EveryOpStaysInBudget(x, op, now, p);
    ProjectsStay(x, op, now);
    StaysUnder(terms.budget, ProjectUsed(x.db, p), ProjectUsed(Do(x, op, now).db, p));
  }

  /** A project within its budget stays within it through any run of operations. */
  lemma {:induction false} BudgetHoldsOverRuns(run: seq<World>, calls: seq<Call>, n: nat, p: Id, terms: Project)
    requires Run(run, calls) && Inv(run[0].db) && n <= |calls| && Solvent(run[0].db, p, terms)
    ensures Solvent(run[n].db, p, terms)
  {
    if n > 0 {
      hide Inv, Do, Legal, Solvent;
      BudgetHoldsOverRuns(run, calls, n - 1, p, terms);
      InvOverRuns(run, calls, n - 1);
      assert StepAt(run, calls, n - 1);
      StaysSolvent(run[n - 1], calls[n - 1].op, calls[n - 1].now, p, terms);
    }
  }
}
