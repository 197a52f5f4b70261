/**
 The application service over the mutable store, ledger and runtime. Each method takes the program's steps in their
 order and is proved to leave exactly the world that the function of the same name in App describes.
 Clock readings and random ids are parameters.
 */
module Service {
  import opened Amounts
  import opened Models
  import opened Placement
  import opened Store
  import opened Runtime
  import opened App
  import opened AppInv
  import opened AppSteps
  import C = Conservation
  import L = Ledger
  import Outcomes
  import P = Phases
  import R = Reconcile
  import Tags

  lemma HeldMapAt(s: State, project: Id)
    ensures HeldMap(s, project).Keys == s.workspaces.Keys
    ensures forall id :: id in s.workspaces ==>
      HeldMap(s, project)[id] == if s.workspaces[id].project == project then Held(s, s.workspaces[id]) else ZERO
  {
    hide Held;
  }

  /** SuspendIdle for one workspace after the other. */
  function SuspendEach(x: World, order: seq<Id>, defaultHours: int, now: int): World {
    if order == [] then x
    else SuspendIdle(SuspendEach(x, order[..|order| - 1], defaultHours, now), order[|order| - 1], defaultHours, now)
  }

  lemma SuspendEachGrows(x: World, order: seq<Id>, id: Id, defaultHours: int, now: int)
    ensures SuspendEach(x, order + [id], defaultHours, now) == SuspendIdle(SuspendEach(x, order, defaultHours, now), id, defaultHours, now)
  {
    assert (order + [id])[..|order|] == order;
  }

  function CheckedOne(s: State, id: Id, now: int): Workspace
    requires id in s.workspaces
  {
    var w := s.workspaces[id];
    var status := HealthStatus(s, w);
    if status == w.status then w else w.(status := status, updatedAt := now)
  }

  /** Every workspace after a health check against the nodes of s. */
  function Checked(s: State, now: int): map<Id, Workspace> { map id | id in s.workspaces :: CheckedOne(s, id, now) }

  /** Checking all workspaces is checking each of them. */
  lemma CheckedExactly(s: State, id: Id, now: int)
    requires id in s.workspaces
    ensures id in Checked(s, now) && Checked(s, now)[id] == CheckHealth(s, id, now).workspaces[id]
  {
    hide HealthStatus;
  }

  lemma HealthReadsNodes(s: State, t: State, w: Workspace)
    requires t.nodes == s.nodes
    ensures HealthStatus(t, w) == HealthStatus(s, w)
  {}

  const DEGRADED_AFTER := 90
  const OFFLINE_AFTER := 180

  /** A worker node by the age of its heartbeat. */
  function Aged(n: Node, now: int): Node {
    var age := now - n.lastHeartbeat;
    if age <= DEGRADED_AFTER then
      n.(health := Healthy, ready := true, fabricPath := if n.fabricPath in {"degraded", "offline", "stale"} then "p2p" else n.fabricPath)
    else if age <= OFFLINE_AFTER then n.(health := Degraded, ready := false, fabricPath := "degraded")
    else n.(health := Offline, ready := false, fabricPath := "offline")
  }

  /** Only a worker node that was heard of in the last 90 seconds counts as ready, and it is offline after 180. */
  lemma NodeAgesExactly(n: Node, now: int)
    ensures var m, age := Refreshed(n, now), now - n.lastHeartbeat;
            if n.role == "control-plane" then m == n
            else
              && m == n.(health := m.health, ready := m.ready, fabricPath := m.fabricPath, tags := m.tags)
              && m.health == (if age <= 90 then Healthy else if age <= 180 then Degraded else Offline)
              && (m.ready <==> age <= 90)
              && m.fabricPath == (if age > 180 then "offline" else if age > 90 then "degraded"
                                  else if n.fabricPath in {"degraded", "offline", "stale"} then "p2p" else n.fabricPath)
  {
    hide Tags.UpsertTags;
  }

  /** What the store keeps of it: a node that changed is upserted, which merges its tags with themselves. */
  function Refreshed(n: Node, now: int): Node {
    if n.role == ROLE_CONTROL_PLANE || Aged(n, now) == n then n
    else Aged(n, now).(tags := Tags.UpsertTags(n.tags, n.tags))
  }

  function AgedNodes(nodes: map<Id, Node>, now: int): map<Id, Node> { map id | id in nodes :: Refreshed(nodes[id], now) }

  lemma AreAged(nodes: map<Id, Node>, aged: map<Id, Node>, now: int)
    requires aged.Keys == nodes.Keys && forall id :: id in nodes ==> aged[id] == Refreshed(nodes[id], now)
    ensures aged == AgedNodes(nodes, now)
  {
    hide Refreshed;
  }

  predicate FoundAs(n: Node, now: int, health: Health) { n.role != ROLE_CONTROL_PLANE && Aged(n, now).health == health }

  /** Those among ids that p holds of. */
  ghost function Those(ids: set<Id>, p: Id -> bool): set<Id> { set id | id in ids && p(id) }

  lemma ThoseGrow(all: set<Id>, todo: set<Id>, id: Id, p: Id -> bool)
    requires todo <= all && id in todo
    ensures |Those(all - (todo - {id}), p)| == |Those(all - todo, p)| + if p(id) then 1 else 0
  {
    var before, after := Those(all - todo, p), Those(all - (todo - {id}), p);
    if p(id) {
      assert after == before + {id};
    } else {
      assert after == before;
    }
  }

  lemma ThoseEnds(all: set<Id>, p: Id -> bool)
    ensures |Those(all - all, p)| == 0 && all - {} == all
  {
    assert Those(all - all, p) == {};
  }

  /** The tests that decide what the loops count, on the state before them. */
  ghost function FoundIn(nodes: map<Id, Node>, now: int, health: Health): Id -> bool {
    (id: Id) => id in nodes && FoundAs(nodes[id], now, health)
  }

  lemma FoundInReads(nodes: map<Id, Node>, id: Id, now: int, health: Health)
    requires id in nodes
    ensures FoundIn(nodes, now, health)(id) == (nodes[id].role != ROLE_CONTROL_PLANE && Aged(nodes[id], now).health == health)
  {}

  lemma IdleInReads(x: World, y: World, id: Id, defaultHours: int, now: int)
    requires id in x.db.workspaces && id in y.db.workspaces && x.db.workspaces[id] == y.db.workspaces[id]
    requires id in x.guests <==> id in y.guests
    ensures IdleIn(x, defaultHours, now)(id) == ShouldSuspend(y, id, defaultHours, now)
  {}

  ghost function IdleIn(x: World, defaultHours: int, now: int): Id -> bool {
    (id: Id) => id in x.db.workspaces && ShouldSuspend(x, id, defaultHours, now)
  }

  ghost function StuckIn(s: State, now: int): Id -> bool { (id: Id) => id in s.workspaces && Stuck(s.workspaces[id], now) }

  ghost function OrphanIn(s: State): Id -> bool { (a: Id) => s.Live(a) && Orphan(s, a) }

  ghost function MovedIn(s: State): Id -> bool {
    (id: Id) => id in s.workspaces && HealthStatus(s, s.workspaces[id]) != s.workspaces[id].status
  }

  lemma MovedInReads(s: State, id: Id)
    requires id in s.workspaces
    ensures MovedIn(s)(id) == (HealthStatus(s, s.workspaces[id]) != s.workspaces[id].status)
  {}

  lemma StuckInSame(s: State, t: State, now: int)
    requires t.workspaces == s.workspaces
    ensures forall ids: set<Id> :: Those(ids, StuckIn(t, now)) == Those(ids, StuckIn(s, now))
  {}

  lemma StuckInReads(s: State, id: Id, now: int)
    requires id in s.workspaces
    ensures StuckIn(s, now)(id) == Stuck(s.workspaces[id], now)
  {}

  /** A loop that has not come to an allocation yet finds it as it was at the start. */
  lemma OrphanInReads(s: State, t: State, a: Id)
    requires t.workspaces == s.workspaces && (a in t.allocs <==> a in s.allocs) && (a in s.allocs ==> t.allocs[a] == s.allocs[a])
    ensures OrphanIn(s)(a) == (t.Live(a) && Orphan(t, a))
  {
    R.OrphanReadsWorkspaces(s, t, a);
    hide Orphan;
  }

  lemma FailStuckEachGrows(x: World, order: seq<Id>, id: Id, now: int)
    ensures R.FailStuckEach(x, order + [id], now) == FailStuck(R.FailStuckEach(x, order, now), id, now)
  {
    assert (order + [id])[..|order|] == order;
  }

  lemma ReleaseEachGrows(s: State, order: seq<Id>, a: Id)
    ensures R.ReleaseEach(s, order + [a]) == ReleaseOrphan(R.ReleaseEach(s, order), a)
  {
    assert (order + [a])[..|order|] == order;
  }

  /** With one owner at most, looking the owner up decides whether anybody still needs an allocation. */
  lemma OrphanByOwner(s: State, a: Id, owners: map<Id, Id>)
    requires OneOwner(s.workspaces) && a != NIL
    requires a in owners ==> Owns(s, owners[a], a)
    requires forall id :: id in s.workspaces ==> s.workspaces[id].alloc in owners
    ensures Orphan(s, a) <==> a !in owners || s.workspaces[owners[a]].status in {Destroyed, Failed}
  {
    if a in owners {
      forall id | Owns(s, id, a) ensures id == owners[a] {}
    }
  }

  lemma StillIndexed(x: World, y: World, now: int)
    requires C.Conserved(x.db) && NIL !in x.db.allocs && R.Reconciles(x, y, now)
    ensures C.Indexed(y.db)
  {
    R.ReconcileReleasesExactly(x, y, now);
    hide R.Reconciles, R.Loose, C.Balanced, C.Placed;
  }

  /** The node that a heartbeat registers: its tags are merged with those stored, and it counts as ready and healthy. */
  function Reported(s: State, n: Node, newId: Id, now: int): Node {
    var known := n.name in s.byName && s.byName[n.name] in s.nodes;
    n.(id := if known then s.byName[n.name] else newId,
       tags := if known then Tags.HeartbeatTags(s.nodes[s.byName[n.name]].tags, n.tags) else n.tags,
       lastHeartbeat := now, ready := true, health := Healthy,
       fabricPath := if n.fabricPath in {"degraded", "offline", "stale"} then "p2p" else n.fabricPath,
       role := if n.role == "" then "worker" else n.role)
  }

  /** A heartbeat makes its node ready and healthy as of now; what is used there, its id and what admins set stays. */
  lemma HeartbeatExactly(s: State, n: Node, newId: Id, now: int)
    requires C.Indexed(s)
    ensures var known := n.name in s.byName;
            var id, t := if known then s.byName[n.name] else newId, s.Upsert(Reported(s, n, newId, now));
            && t.byName == s.byName[n.name := id] && id in t.nodes && t.nodes == s.nodes[id := t.nodes[id]]
            && t.allocs == s.allocs && t.workspaces == s.workspaces
            && var m := t.nodes[id];
               && m.name == n.name && m.ready && m.health == Healthy && m.lastHeartbeat == now && m.allocatable == n.allocatable
               && m.arch == n.arch && m.power == n.power && m.role == (if n.role == "" then "worker" else n.role)
               && m.fabricPath == (if n.fabricPath in {"degraded", "offline", "stale"} then "p2p" else n.fabricPath)
               && (known ==> m.used == s.nodes[id].used && m.machineType == s.nodes[id].machineType && m.remark == s.nodes[id].remark)
               && (!known ==> m.used == n.used && m.tags == n.tags && m.machineType == (if n.machineType == "" then "self" else n.machineType))
  {
    hide Tags.UpsertTags, Tags.HeartbeatTags;
  }

  lemma UpsertKnown(s: State, n: Node)
    requires C.Indexed(s) && n.id in s.nodes && n.name == s.nodes[n.id].name
    ensures var known := s.nodes[n.id];
            s.Upsert(n) == s.(nodes := s.nodes[n.id := n.(used := known.used, machineType := known.machineType, remark := known.remark,
                                                          tags := Tags.UpsertTags(known.tags, n.tags))])
    ensures C.Indexed(s.Upsert(n))
  {
    assert s.byName[n.name := n.id] == s.byName;
  }

  lemma Provisions(x: World, id: Id, alloc: Id, launched: bool, approved: bool, now: int)
    ensures C.Conserved(x.db) ==>
              Outcomes.ProvisionedAs(x, App.FinishProvision(x, id, alloc, launched, approved, now), id, alloc, launched, approved, now)
  {
    hide C.Conserved, Outcomes.ProvisionedAs, App.FinishProvision;
    if C.Conserved(x.db) {
      Outcomes.ProvisionOutcome(x, id, alloc, launched, approved, now);
    }
  }

  class Application {
    const store: MemStore
    const ledger: L.Service
    const runtime: MemoryRuntime

    constructor (store: MemStore, ledger: L.Service, runtime: MemoryRuntime)
      ensures this.store == store && this.ledger == ledger && this.runtime == runtime
    {
      this.store, this.ledger, this.runtime := store, ledger, runtime;
    }

    function View(): World
      reads store, runtime
    {
      World(store.View(), Guests(runtime.inst))
    }

    ghost predicate Valid()
      reads runtime
    {
      ledger.store == store && runtime.Valid()
    }

    method RequireReady(actor: Actor, project: Id, minRank: int) returns (r: Outcome)
      ensures r == Ready(store.View(), actor, project, minRank)
    {
      r := actor.Member(minRank);
      if r != Done {
        return;
      }
      if project !in store.projects {
        return Fail(ErrNotFound);
      }
      if !store.projects[project].hasPurpose {
        return Fail(ErrPurposeRequired);
      }
    }

    // ----- budget

    method ProjectUsed(project: Id) returns (used: Amount)
      ensures used == App.ProjectUsed(store.View(), project)
    {
      hide HeldMap, Sum, SumOver;
      ghost var m := HeldMap(store.View(), project);
      HeldMapAt(store.View(), project);
      SumOverEnds(m);
      used := ZERO;
      var todo := store.workspaces.Keys;
      while todo != {}
        invariant todo <= store.workspaces.Keys
        invariant used.Plus(SumOver(m, todo)) == Sum(m)
      {
        var id :| id in todo;
        SumOverSplit(m, todo, id);
        todo := todo - {id};
        var ws := store.workspaces[id];
        if ws.project != project {
          continue;
        }
        if ws.status == Destroyed || ws.status == Failed || ws.status == Requested || ws.status == Rejected {
          continue;
        }
        if ws.alloc !in store.allocs || store.allocs[ws.alloc].state == Released {
          continue;
        }
        used := used.Plus(store.allocs[ws.alloc].size);
      }
    }

    method CheckProjectBudget(project: Id, extra: Amount) returns (r: Outcome)
      ensures r == CheckBudget(store.View(), project, extra)
    {
      if project !in store.projects {
        return Fail(ErrNotFound);
      }
      var budget := store.projects[project].budget;
      if budget.cpu == 0 && budget.mem == 0 && budget.disk == 0 {
        return Done;
      }
      var used := ProjectUsed(project);
      if budget.cpu > 0 && used.cpu + extra.cpu > budget.cpu {
        return Fail(ErrNoCapacity);
      }
      if budget.mem > 0 && used.mem + extra.mem > budget.mem {
        return Fail(ErrNoCapacity);
      }
      if budget.disk > 0 && used.disk + extra.disk > budget.disk {
        return Fail(ErrNoCapacity);
      }
      return Done;
    }

    // ----- creating and approving

    method RequestWorkspace(d: Draft, plan: Plan, arch: string, actor: Actor, newWs: Id, now: int) returns (r: Outcome)
      modifies store
      ensures forall draw: Draw :: draw.ws == newWs ==>
                (store.View(), r) == App.RequestWorkspace(old(store.View()), d, plan, arch, actor, draw, now)
    {
      var w := NewWorkspace(d, plan, arch, actor.id, NIL, NIL, Requested, now);
      r := store.CreateWorkspace(newWs, w);
      if r != Done {
        return;
      }
      store.AddAudit(Entry(newWs, None, "workspace.request", None));
    }

    /** place is the node that the ledger chose. */
    method ProvisionNewWorkspace(d: Draft, plan: Plan, arch: string, actor: Actor, newWs: Id, newAlloc: Id, now: int)
      returns (r: Outcome, ghost place: Id)
      requires ledger.store == store && L.WellKeyed(store) && arch != ""
      modifies store
      ensures (store.View(), r) == ProvisionNew(old(store.View()), d, plan, arch, actor, Draw(newWs, newAlloc, place), now)
    {
      var kept;
      r, kept := ledger.Reserve(d.project, plan.size, arch, false, newAlloc);
      place := kept.node;
      if r != Done {
        NothingBest(old(store.nodes), Query(arch, plan.size, false), place);
        return;
      }
      var node := store.nodes[kept.node];
      var w := NewWorkspace(d, plan, node.arch, actor.id, node.id, newAlloc, Provisioning, now);
      r := store.CreateWorkspace(newWs, w);
      if r != Done {
        var _ := ledger.Release(newAlloc);
        return;
      }
    }

    method CreateWorkspace(d: Draft, actor: Actor, newWs: Id, newAlloc: Id, now: int) returns (r: Outcome, ghost place: Id)
      requires ledger.store == store && L.WellKeyed(store)
      modifies store
      ensures (store.View(), r) == App.CreateWorkspace(old(store.View()), d, actor, Draw(newWs, newAlloc, place), now)
    {
      hide CheckBudget, ProvisionNew, App.RequestWorkspace, ResolveSpec, NormalizeArch;
      place := NIL;
      r := RequireReady(actor, d.project, RANK_DEVELOPER);
      if r != Done {
        return;
      }
      var plan := ResolveSpec(d.planName, d.size);
      if plan.None? {
        return Fail(ErrInvalidInput), place;
      }
      var arch := NormalizeArch(d.arch);
      if arch == "" {
        return Fail(ErrInvalidInput), place;
      }
      r := CheckProjectBudget(d.project, plan.value.size);
      if r != Done {
        return;
      }
      if !actor.CanApprove() {
        r := RequestWorkspace(d, plan.value, arch, actor, newWs, now);
      } else {
        r, place := ProvisionNewWorkspace(d, plan.value, arch, actor, newWs, newAlloc, now);
      }
    }

    method ApproveWorkspace(id: Id, actor: Actor, newAlloc: Id, now: int) returns (r: Outcome, ghost place: Id)
      requires ledger.store == store && L.WellKeyed(store)
      modifies store
      ensures forall ws :: (store.View(), r) == App.ApproveWorkspace(old(store.View()), id, actor, Draw(ws, newAlloc, place), now)
    {
      hide CheckBudget, Ready, Workspace.Spec;
      place := NIL;
      if id !in store.workspaces {
        return Fail(ErrNotFound), place;
      }
      var w := store.workspaces[id];
      r := RequireReady(actor, w.project, RANK_ADMIN);
      if r != Done {
        return;
      }
      if w.status != Requested {
        return Fail(ErrInvalidInput), place;
      }
      var spec := w.Spec().size;
      if spec.cpu == 0 {
        return Fail(ErrInvalidInput), place;
      }
      r := CheckProjectBudget(w.project, spec);
      if r != Done {
        return;
      }
      var kept;
      r, kept := ledger.Reserve(w.project, spec, w.arch, false, newAlloc);
      place := kept.node;
      if r != Done {
        NothingBest(old(store.nodes), Query(NormalArch(w.arch), spec, false), place);
        return;
      }
      var node := store.nodes[kept.node];
      w := w.(arch := node.arch, node := node.id, alloc := newAlloc, status := Provisioning, updatedAt := now);
      r := store.UpdateWorkspace(id, w);
    }

    method RejectWorkspace(id: Id, actor: Actor, now: int) returns (r: Outcome)
      modifies store
      ensures (store.View(), r) == App.RejectWorkspace(old(store.View()), id, actor, now)
    {
      if id !in store.workspaces {
        return Fail(ErrNotFound);
      }
      var w := store.workspaces[id];
      r := actor.Member(RANK_ADMIN);
      if r != Done {
        return;
      }
      if w.status != Requested {
        return Fail(ErrInvalidInput);
      }
      w := w.(status := Rejected, updatedAt := now);
      r := store.UpdateWorkspace(id, w);
      if r != Done {
        return;
      }
      store.AddAudit(Entry(id, None, "workspace.reject", None));
    }

    // ----- the provision worker

    method DropAbortedProvision(id: Id, alloc: Id)
      requires Valid()
      modifies store, runtime
      ensures Valid() && View() == DropAborted(old(View()), id, alloc)
    {
      runtime.Destroy(id);
      if alloc != NIL {
        var _ := ledger.Release(alloc);
      }
    }

    /** Compare-and-set away from provisioning; whoever loses removes the instance. */
    method CommitProvisioningStatus(id: Id, latest: Workspace) returns (r: Outcome)
      requires Valid()
      modifies store, runtime
      ensures Valid() && (store.View(), r) == old(store.View()).UpdateWorkspaceIfStatus(id, latest, Provisioning)
      ensures runtime.inst == if r == Fail(ErrConflict) then old(runtime.inst) - {id} else old(runtime.inst)
    {
      r := store.UpdateWorkspaceIfStatus(id, latest, Provisioning);
      if r == Fail(ErrConflict) {
        runtime.Destroy(id);
      }
    }

    /** One run of the worker with nothing in between; fault makes Launch fail. */
    method FinishProvision(id: Id, node: Id, alloc: Id, pubs: seq<string>, fault: bool, approved: bool, now: int)
      requires Valid()
      modifies store, runtime
      ensures Valid() && View() == App.FinishProvision(old(View()), id, alloc, !fault, approved, now)
      ensures C.Conserved(old(store.View())) ==> Outcomes.ProvisionedAs(old(View()), View(), id, alloc, !fault, approved, now)
    {
      hide State.Release, State.Activate, C.Conserved, Outcomes.ProvisionedAs;
      Provisions(View(), id, alloc, !fault, approved, now);
      ReleaseLeavesAll(store.View(), alloc);
      var launch := runtime.Launch(id, node, pubs, fault);
      if id !in store.workspaces {
        DropAbortedProvision(id, alloc);
        return;
      }
      var latest := store.workspaces[id];
      if latest.status != Provisioning {
        DropAbortedProvision(id, alloc);
        return;
      }
      if launch != Done {
        latest := latest.(status := Failed, updatedAt := now);
        var r := CommitProvisioningStatus(id, latest);
        if r != Done {
          return;
        }
        var _ := ledger.Release(alloc);
        return;
      }
      var r := store.ActivateAllocation(alloc);
      if r != Done {
        DropAbortedProvision(id, alloc);
        return;
      }
      latest := latest.(status := Running, updatedAt := now);
      r := CommitProvisioningStatus(id, latest);
      if r != Done {
        return;
      }
      store.AddAudit(Entry(id, None, if approved then "workspace.approve" else "workspace.create", None));
    }

    // ----- resizing

    /** The last part of ApproveResize: the ledger, the runtime, and the rollback. */
    method ApplyResize(id: Id, w: Workspace, kind: ResizeKind, delta: Amount, fault: bool, now: int) returns (r: Outcome)
      requires Valid() && id in store.workspaces && (kind == Downgrade ==> delta.Within(ZERO))
      modifies store
      ensures Valid() && runtime.inst == old(runtime.inst)
      ensures var (db, e) := old(store.View()).Expand(w.alloc, delta);
              (store.View(), r) == if e != Done then (old(store.View()), e)
                                   else if fault || id !in runtime.inst
                                   then (db.Expand(w.alloc, if kind == Downgrade then delta else delta.Neg()).0, Fail(ErrRuntime))
                                   else (db.PutWorkspace(id, Resized(w, now)).AddAudit(Entry(id, None, "workspace.resize.approve", None)), Done)
    {
      hide State.Expand, Resized;
      ExpandFails(store.View(), w.alloc, delta);
      ExpandKeepsWorkspaces(store.View(), w.alloc, delta);
      if kind == Downgrade {
        assert delta.Neg().Neg() == delta;
        r := ledger.Shrink(w.alloc, delta.Neg());
      } else {
        r := ledger.Expand(w.alloc, delta);
      }
      if r != Done {
        return;
      }
      r := runtime.Resize(id, fault);
      if r != Done {
        if kind == Downgrade {
          var _ := ledger.Expand(w.alloc, delta);
        } else {
          var _ := ledger.Expand(w.alloc, delta.Neg());
        }
        return Fail(ErrRuntime);
      }
      r := store.UpdateWorkspace(id, Resized(w, now));
      if r != Done {
        return;
      }
      store.AddAudit(Entry(id, None, "workspace.resize.approve", None));
    }

    method ApproveResize(id: Id, actor: Actor, fault: bool, now: int) returns (r: Outcome)
      requires Valid()
      modifies store
      ensures Valid() && runtime.inst == old(runtime.inst)
      ensures (View(), r) == App.ApproveResize(old(View()), id, actor, fault, now)
    {
      hide CheckBudget, Ready, Workspace.Spec, State.Expand, ClassifyResize, Resized;
      if id !in store.workspaces {
        return Fail(ErrNotFound);
      }
      var w := store.workspaces[id];
      r := RequireReady(actor, w.project, RANK_ADMIN);
      if r != Done {
        return;
      }
      if !w.resizePending {
        return Fail(ErrInvalidInput);
      }
      var cur := w.Spec().size;
      var kind := w.resizeKind;
      if kind == NoKind {
        kind := ClassifyResize(cur, w.pending).0;
      }
      var delta := w.pending.Minus(cur);
      if kind == Upgrade {
        r := CheckProjectBudget(w.project, delta);
        if r != Done {
          return;
        }
      }
      if w.alloc == NIL {
        return Fail(ErrInvalidInput);
      }
      if kind == Downgrade {
        if delta.cpu > 0 || delta.mem > 0 || delta.disk > 0 {
          return Fail(ErrInvalidInput);
        }
      }
      r := ApplyResize(id, w, kind, delta, fault, now);
    }

    method RequestResize(id: Id, actor: Actor, size: Amount, fault: bool, now: int) returns (r: Outcome)
      requires Valid()
      modifies store
      ensures Valid() && runtime.inst == old(runtime.inst)
      ensures (View(), r) == App.RequestResize(old(View()), id, actor, size, fault, now)
    {
      hide CheckBudget, Ready, Workspace.Spec, App.ApproveResize, ResolveSpec, ClassifyResize;
      if id !in store.workspaces {
        return Fail(ErrNotFound);
      }
      var w := store.workspaces[id];
      r := RequireReady(actor, w.project, RANK_DEVELOPER);
      if r != Done {
        return;
      }
      if !MayTouch(w, actor) {
        return Fail(ErrForbidden);
      }
      if w.status != Running && w.status != Stopped && w.status != FabricDegraded {
        return Fail(ErrInvalidInput);
      }
      if w.resizePending {
        return Fail(ErrConflict);
      }
      var cur := w.Spec().size;
      var target := ResolveSpec("custom", size);
      if target.None? {
        return Fail(ErrInvalidInput);
      }
      var (kind, classified) := ClassifyResize(cur, target.value.size);
      if classified != Done {
        return classified;
      }
      if kind == Upgrade {
        r := CheckProjectBudget(w.project, target.value.size.Minus(cur));
        if r != Done {
          return;
        }
      }
      w := w.(pending := target.value.size, resizePending := true, resizeKind := kind, updatedAt := now);
      r := store.UpdateWorkspace(id, w);
      store.AddAudit(Entry(id, None, "workspace.resize.request", None));
      ReadyReadsProjects(old(store.View()), store.View(), actor, w.project, RANK_ADMIN);
      if kind == Upgrade {
        var may := RequireReady(actor, w.project, RANK_ADMIN);
        if may == Done {
          r := ApproveResize(id, actor, fault, now);
        }
      }
    }

    method RejectResize(id: Id, actor: Actor, now: int) returns (r: Outcome)
      modifies store
      ensures (View(), r) == App.RejectResize(old(View()), id, actor, now)
    {
      if id !in store.workspaces {
        return Fail(ErrNotFound);
      }
      var w := store.workspaces[id];
      r := actor.Member(RANK_DEVELOPER);
      if r != Done {
        return;
      }
      if !w.resizePending {
        return Fail(ErrInvalidInput);
      }
      w := w.(pending := ZERO, resizePending := false, updatedAt := now);
      r := store.UpdateWorkspace(id, w);
      if r != Done {
        return;
      }
      store.AddAudit(Entry(id, None, "workspace.resize.reject", None));
    }

    // ----- destroying

    method ExecuteDestroy(id: Id, now: int)
      requires Valid() && id in store.workspaces
      modifies store, runtime
      ensures Valid() && View() == App.ExecuteDestroy(old(View()), id, now)
      ensures C.Conserved(old(store.View())) ==> Outcomes.DestroyedAs(old(View()), View(), id, now)
    {
      hide State.Release, C.Conserved, Outcomes.DestroyedAs;
      if C.Conserved(store.View()) {
        Outcomes.DestroyOutcome(View(), id, now);
      }
      var w := store.workspaces[id];
      w := w.(status := Destroying, updatedAt := now);
      var r := store.UpdateWorkspace(id, w);
      ReleaseLeavesAll(store.View(), w.alloc);
      runtime.Destroy(id);
      if w.alloc != NIL {
        r := ledger.Release(w.alloc);
      }
      w := w.(status := Destroyed, updatedAt := now);
      r := store.UpdateWorkspace(id, w);
      store.AddAudit(Entry(id, None, "workspace.destroy", None));
    }

    method EnsureGuestRunningForDestroyReview(id: Id, pubs: seq<string>) returns (r: Outcome)
      requires Valid() && id in store.workspaces
      modifies runtime
      ensures Valid() && (View(), r) == WakeForReview(old(View()), id)
    {
      var w := store.workspaces[id];
      if w.status != Stopped && w.status != Suspended {
        return Done;
      }
      r := runtime.Start(id);
      if r != Done {
        return;
      }
      if |pubs| > 0 {
        var _ := runtime.SyncKeys(id, pubs);
      }
    }

    method RequestDestroyWorkspace(id: Id, actor: Actor, pubs: seq<string>, now: int) returns (r: Outcome)
      requires Valid()
      modifies store, runtime
      ensures Valid() && (View(), r) == App.RequestDestroy(old(View()), id, actor, now)
    {
      hide App.ExecuteDestroy;
      if id !in store.workspaces {
        return Fail(ErrNotFound);
      }
      var w := store.workspaces[id];
      r := actor.Member(RANK_DEVELOPER);
      if r != Done {
        return;
      }
      if !MayTouch(w, actor) {
        return Fail(ErrForbidden);
      }
      if w.status == DestroyRequested || w.status == DestroyPendingPlatform || w.status == Destroying || w.status == Destroyed {
        return Fail(ErrConflict);
      }
      var from := w.status;
      if actor.platformAdmin {
        ExecuteDestroy(id, now);
        return Done;
      }
      r := EnsureGuestRunningForDestroyReview(id, pubs);
      if r != Done {
        return;
      }
      if actor.CanApprove() {
        w := w.(status := DestroyPendingPlatform, updatedAt := now);
        r := store.UpdateWorkspace(id, w);
        store.AddAudit(Entry(id, None, DESTROY_REQUEST, Some(from)));
        store.AddAudit(Entry(id, None, "workspace.destroy.approve_project", None));
        return;
      }
      w := w.(status := DestroyRequested, updatedAt := now);
      r := store.UpdateWorkspace(id, w);
      store.AddAudit(Entry(id, None, DESTROY_REQUEST, Some(from)));
    }

    method ApproveDestroyProject(id: Id, actor: Actor, now: int) returns (r: Outcome)
      requires Valid()
      modifies store, runtime
      ensures Valid() && (View(), r) == App.ApproveDestroyProject(old(View()), id, actor, now)
    {
      if id !in store.workspaces {
        return Fail(ErrNotFound);
      }
      var w := store.workspaces[id];
      r := actor.Member(RANK_ADMIN);
      if r != Done {
        return;
      }
      if w.status == DestroyPendingPlatform {
        return Done;
      }
      if w.status != DestroyRequested {
        return Fail(ErrInvalidInput);
      }
      var next := P.NextAfterProjectApprove(P.WorkspaceDestroy);
      assert next == P.PendingPlatform;
      w := w.(status := DestroyPendingPlatform, updatedAt := now);
      r := store.UpdateWorkspace(id, w);
      if r != Done {
        return;
      }
      store.AddAudit(Entry(id, None, "workspace.destroy.approve_project", None));
    }

    method ApproveDestroyPlatform(id: Id, actor: Actor, now: int) returns (r: Outcome)
      requires Valid()
      modifies store, runtime
      ensures Valid() && (View(), r) == App.ApproveDestroyPlatform(old(View()), id, actor, now)
    {
      if !actor.platformAdmin {
        return Fail(ErrForbidden);
      }
      if id !in store.workspaces {
        return Fail(ErrNotFound);
      }
      if store.workspaces[id].status != DestroyPendingPlatform {
        return Fail(ErrInvalidInput);
      }
      ExecuteDestroy(id, now);
      return Done;
    }

    /** The search through the newest entries for the newest request. */
    method RestoreAfterDestroyReject(id: Id, action: string, now: int) returns (r: Outcome)
      requires Valid() && id in store.workspaces
      modifies store
      ensures Valid() && View() == RestoreAfterReject(old(View()), id, action, now) && r == Done
    {
      var from := RestoreStatus(None);
      var logs := store.ListAuditByResource(id, REVIEW_HISTORY);
      var i := 0;
      while i < |logs|
        invariant 0 <= i <= |logs| && from == Running && store.View() == old(store.View())
        invariant OriginIn(logs) == OriginIn(logs[i..])
        invariant i == |logs| ==> OriginIn(logs) == None
      {
        if logs[i].action == DESTROY_REQUEST {
          from := RestoreStatus(logs[i].fromStatus);
          break;
        }
        assert logs[i..][1..] == logs[i + 1..];
        i := i + 1;
      }
      assert from == RestoreStatus(OriginIn(logs));
      var w := store.workspaces[id].(status := from, updatedAt := now);
      r := store.UpdateWorkspace(id, w);
      store.AddAudit(Entry(id, None, action, None));
    }

    method RejectDestroyProject(id: Id, actor: Actor, now: int) returns (r: Outcome)
      requires Valid()
      modifies store
      ensures Valid() && (View(), r) == App.RejectDestroyProject(old(View()), id, actor, now)
    {
      if id !in store.workspaces {
        return Fail(ErrNotFound);
      }
      var w := store.workspaces[id];
      r := actor.Member(RANK_ADMIN);
      if r != Done {
        return;
      }
      if w.status != DestroyRequested {
        return Fail(ErrInvalidInput);
      }
      r := RestoreAfterDestroyReject(id, "workspace.destroy.reject_project", now);
    }

    method RejectDestroyPlatform(id: Id, actor: Actor, now: int) returns (r: Outcome)
      requires Valid()
      modifies store
      ensures Valid() && (View(), r) == App.RejectDestroyPlatform(old(View()), id, actor, now)
    {
      if !actor.platformAdmin {
        return Fail(ErrForbidden);
      }
      if id !in store.workspaces {
        return Fail(ErrNotFound);
      }
      if store.workspaces[id].status != DestroyPendingPlatform {
        return Fail(ErrInvalidInput);
      }
      r := RestoreAfterDestroyReject(id, "workspace.destroy.reject_platform", now);
    }

    method DestroyWorkspace(id: Id, actor: Actor, pubs: seq<string>, now: int) returns (r: Outcome)
      requires Valid()
      modifies store, runtime
      ensures Valid() && (View(), r) == App.DestroyWorkspace(old(View()), id, actor, now)
    {
      if actor.platformAdmin {
        if id !in store.workspaces {
          return Fail(ErrNotFound);
        }
        ExecuteDestroy(id, now);
        return Done;
      }
      r := RequestDestroyWorkspace(id, actor, pubs, now);
    }

    // ----- stop, start, wake

    method StopWorkspace(id: Id, actor: Actor, now: int) returns (r: Outcome)
      requires Valid()
      modifies store, runtime
      ensures Valid() && (View(), r) == App.Stop(old(View()), id, actor, now)
    {
      hide Ready;
      if id !in store.workspaces {
        return Fail(ErrNotFound);
      }
      var w := store.workspaces[id];
      r := RequireReady(actor, w.project, RANK_DEVELOPER);
      if r != Done {
        return;
      }
      if w.status.ReviewInFlight() {
        return Fail(ErrConflict);
      }
      if w.status.Closed() || w.status == Requested {
        return Fail(ErrInvalidInput);
      }
      r := runtime.Stop(id);
      if r != Done {
        return;
      }
      w := w.(status := Stopped, updatedAt := now);
      r := store.UpdateWorkspace(id, w);
      store.AddAudit(Entry(id, None, "workspace.stop", None));
    }

    method StartWorkspace(id: Id, actor: Actor, pubs: seq<string>, now: int) returns (r: Outcome)
      requires Valid()
      modifies store, runtime
      ensures Valid() && (View(), r) == App.Start(old(View()), id, actor, now)
    {
      hide Ready;
      if id !in store.workspaces {
        return Fail(ErrNotFound);
      }
      var w := store.workspaces[id];
      r := RequireReady(actor, w.project, RANK_DEVELOPER);
      if r != Done {
        return;
      }
      if w.status.Closed() || w.status == Requested {
        return Fail(ErrInvalidInput);
      }
      r := runtime.Start(id);
      if r != Done {
        return;
      }
      if |pubs| > 0 {
        var _ := runtime.SyncKeys(id, pubs);
      }
      w := w.(status := Running, lastActivityAt := now, updatedAt := now);
      r := store.UpdateWorkspace(id, w);
      store.AddAudit(Entry(id, None, "workspace.start", None));
    }

    method WakeWorkspaceIfSuspended(id: Id, now: int) returns (r: Outcome)
      requires Valid()
      modifies store, runtime
      ensures Valid() && (View(), r) == App.Wake(old(View()), id, now)
    {
      if id !in store.workspaces {
        return Fail(ErrNotFound);
      }
      var w := store.workspaces[id];
      if w.status != Suspended && w.status != Stopped {
        return Done;
      }
      r := runtime.Start(id);
      if r != Done {
        return;
      }
      w := w.(status := Running, lastActivityAt := now, updatedAt := now);
      r := store.UpdateWorkspace(id, w);
    }

    // ----- loops over everything

    /** order is the order in which the store listed the workspaces. */
    method SuspendIdleWorkspaces(defaultHours: int, now: int) returns (suspended: nat, ghost order: seq<Id>)
      requires Valid()
      modifies store, runtime
      ensures Valid() && R.Covers(order, old(store.workspaces).Keys)
      ensures View() == SuspendEach(old(View()), order, defaultHours, now)
      ensures suspended == |Those(old(store.workspaces).Keys, IdleIn(old(View()), defaultHours, now))|
    {
      hide ShouldSuspend, SuspendIdle, Those, Guests, IdleIn;
      ghost var isIdle := IdleIn(View(), defaultHours, now);
      var wss := store.workspaces;
      var todo := wss.Keys;
      suspended, order := 0, [];
      ThoseEnds(wss.Keys, isIdle);
      while todo != {}
        invariant Valid() && todo <= wss.Keys == store.workspaces.Keys
        invariant forall id :: id in order <==> id in wss && id !in todo
        invariant forall id :: id in todo ==> store.workspaces[id] == wss[id]
        invariant forall id :: id in Guests(runtime.inst) <==> id in Guests(old(runtime.inst))
        invariant View() == SuspendEach(old(View()), order, defaultHours, now)
        invariant suspended == |Those(wss.Keys - todo, isIdle)|
      {
        var id :| id in todo;
        ThoseGrow(wss.Keys, todo, id, isIdle);
        IdleInReads(old(View()), View(), id, defaultHours, now);
        todo := todo - {id};
        SuspendEachGrows(old(View()), order, id, defaultHours, now);
        order := order + [id];
        var done := SuspendIfIdle(id, wss[id], defaultHours, now);
        if done {
          suspended := suspended + 1;
        }
      }
    }

    static method IsIdle(w: Workspace, defaultHours: int, now: int) returns (due: bool)
      ensures due == (w.status in {Running, FabricDegraded} && IdleHours(w, defaultHours) > 0
                      && now - LastActivity(w) >= IdleHours(w, defaultHours) * HOUR)
    {
      if w.status.ReviewInFlight() {
        return false;
      }
      if w.status != Running && w.status != FabricDegraded {
        return false;
      }
      var hours := w.idleHours;
      if hours <= 0 {
        hours := defaultHours;
      }
      if hours <= 0 {
        return false;
      }
      var last := w.lastActivityAt;
      if last == 0 {
        last := w.updatedAt;
      }
      if last == 0 {
        last := w.createdAt;
      }
      return now - last >= hours * HOUR;
    }

    /** The loop body of SuspendIdleWorkspaces. */
    method SuspendIfIdle(id: Id, w: Workspace, defaultHours: int, now: int) returns (done: bool)
      requires Valid() && id in store.workspaces && store.workspaces[id] == w
      modifies store, runtime
      ensures Valid() && View() == SuspendIdle(old(View()), id, defaultHours, now)
      ensures done == ShouldSuspend(old(View()), id, defaultHours, now)
      ensures forall j :: j in Guests(runtime.inst) <==> j in Guests(old(runtime.inst))
      ensures id in store.workspaces && store.workspaces == old(store.workspaces)[id := store.workspaces[id]]
    {
      hide LastActivity, IdleHours, Guests;
      GuestKeys(runtime.inst);
      var due := IsIdle(w, defaultHours, now);
      if !due {
        return false;
      }
      var r := runtime.Stop(id);
      if r != Done {
        return false;
      }
      r := store.UpdateWorkspace(id, w.(status := Suspended, updatedAt := now));
      store.AddAudit(Entry(id, None, "workspace.idle_suspend", None));
      return true;
    }

    method ReconcileWorkspaceHealth(now: int) returns (updated: nat)
      modifies store
      ensures store.View() == old(store.View()).(workspaces := Checked(old(store.View()), now))
      ensures updated == |Those(old(store.workspaces).Keys, MovedIn(old(store.View())))|
    {
      hide HealthStatus, Those, MovedIn;
      ghost var moves := MovedIn(store.View());
      var wss := store.workspaces;
      var todo := wss.Keys;
      updated := 0;
      ThoseEnds(wss.Keys, moves);
      while todo != {}
        invariant todo <= wss.Keys == store.workspaces.Keys
        invariant forall id :: id in todo ==> store.workspaces[id] == wss[id]
        invariant forall id :: id in wss && id !in todo ==> store.workspaces[id] == CheckedOne(old(store.View()), id, now)
        invariant store.View() == old(store.View()).(workspaces := store.workspaces)
        invariant updated == |Those(wss.Keys - todo, moves)|
      {
        var id :| id in todo;
        ThoseGrow(wss.Keys, todo, id, moves);
        MovedInReads(old(store.View()), id);
        todo := todo - {id};
        var w := wss[id];
        var status := HealthOf(w);
        HealthReadsNodes(old(store.View()), store.View(), w);
        if status == w.status {
          continue;
        }
        var r := store.UpdateWorkspace(id, w.(status := status, updatedAt := now));
        updated := updated + 1;
      }
      assert store.workspaces == Checked(old(store.View()), now);
    }

    /** The loop body of ReconcileWorkspaceHealth up to the decision. */
    method HealthOf(w: Workspace) returns (status: Status)
      ensures status == HealthStatus(store.View(), w)
    {
      if !w.status.HealthActive() {
        return w.status;
      }
      if w.node == NIL {
        return w.status;
      }
      status := w.status;
      if w.node !in store.nodes {
        status := NodeLost;
      } else {
        match store.nodes[w.node].health
        case Offline => status := NodeLost;
        case Degraded =>
          if w.status == Running {
            status := FabricDegraded;
          }
        case Healthy =>
          if w.status == NodeLost {
            status := Running;
          }
      }
    }

    method RefreshNodeHealth(now: int) returns (degraded: nat, offline: nat)
      requires C.Indexed(store.View())
      modifies store
      ensures var aged := AgedNodes(old(store.nodes), now);
              store.View() == old(store.View()).(nodes := aged, workspaces := Checked(old(store.View()).(nodes := aged), now))
      ensures offline == |Those(old(store.nodes).Keys, FoundIn(old(store.nodes), now, Offline))|
      ensures degraded == |Those(old(store.nodes).Keys, FoundIn(old(store.nodes), now, Degraded))|
    {
      hide Checked, AgedNodes, Those, FoundIn, C.Indexed;
      degraded, offline := AgeAllNodes(now);
      var _ := ReconcileWorkspaceHealth(now);
    }

    /** The loop of RefreshNodeHealth. */
    method AgeAllNodes(now: int) returns (degraded: nat, offline: nat)
      requires C.Indexed(store.View())
      modifies store
      ensures store.View() == old(store.View()).(nodes := AgedNodes(old(store.nodes), now))
      ensures offline == |Those(old(store.nodes).Keys, FoundIn(old(store.nodes), now, Offline))|
      ensures degraded == |Those(old(store.nodes).Keys, FoundIn(old(store.nodes), now, Degraded))|
    {
      hide Refreshed, Aged, Those, AgedNodes, FoundIn, C.Indexed;
      var nodes := store.nodes;
      var todo := nodes.Keys;
      degraded, offline := 0, 0;
      ghost var isOffline, isDegraded := FoundIn(nodes, now, Offline), FoundIn(nodes, now, Degraded);
      ThoseEnds(nodes.Keys, isOffline);
      ThoseEnds(nodes.Keys, isDegraded);
      while todo != {}
        invariant todo <= nodes.Keys == store.nodes.Keys && C.Indexed(store.View())
        invariant forall id :: id in todo ==> store.nodes[id] == nodes[id]
        invariant forall id :: id in nodes && id !in todo ==> store.nodes[id] == Refreshed(nodes[id], now)
        invariant store.View() == old(store.View()).(nodes := store.nodes)
        invariant offline == |Those(nodes.Keys - todo, isOffline)| && degraded == |Those(nodes.Keys - todo, isDegraded)|
      {
        var id :| id in todo;
        ThoseGrow(nodes.Keys, todo, id, isOffline);
        ThoseGrow(nodes.Keys, todo, id, isDegraded);
        FoundInReads(nodes, id, now, Offline);
        FoundInReads(nodes, id, now, Degraded);
        todo := todo - {id};
        var health := RefreshNode(id, now);
        if health == Some(Degraded) {
          degraded := degraded + 1;
        } else if health == Some(Offline) {
          offline := offline + 1;
        }
      }
      AreAged(nodes, store.nodes, now);
    }

    /** The loop body of RefreshNodeHealth; None for the control plane, which is skipped. */
    method RefreshNode(id: Id, now: int) returns (health: Option<Health>)
      requires C.Indexed(store.View()) && id in store.nodes
      modifies store
      ensures C.Indexed(store.View())
      ensures store.View() == old(store.View()).(nodes := old(store.nodes)[id := Refreshed(old(store.nodes)[id], now)])
      ensures var n := old(store.nodes)[id]; health == if n.role == ROLE_CONTROL_PLANE then None else Some(Aged(n, now).health)
    {
      var n := store.nodes[id];
      if n.role == ROLE_CONTROL_PLANE {
        assert store.nodes == old(store.nodes)[id := n];
        return None;
      }
      var age := now - n.lastHeartbeat;
      var was := n;
      if age <= DEGRADED_AFTER {
        n := n.(health := Healthy, ready := true);
        if n.fabricPath == "degraded" || n.fabricPath == "offline" || n.fabricPath == "stale" {
          n := n.(fabricPath := "p2p");
        }
      } else if age <= OFFLINE_AFTER {
        n := n.(health := Degraded, ready := false, fabricPath := "degraded");
      } else {
        n := n.(health := Offline, ready := false, fabricPath := "offline");
      }
      assert n == Aged(was, now);
      if n.health != was.health || n.ready != was.ready || n.fabricPath != was.fabricPath {
        UpsertKnown(store.View(), n);
        store.UpsertNode(n);
      } else {
        assert n == was;
        assert store.nodes == old(store.nodes)[id := n];
      }
      return Some(n.health);
    }

    // ----- reconciling

    method ReconcileStuckProvisioning(now: int) returns (n: nat, ghost order: seq<Id>)
      requires Valid()
      modifies store, runtime
      ensures Valid() && R.Covers(order, old(store.workspaces).Keys)
      ensures View() == R.FailStuckEach(old(View()), order, now)
      ensures n == |Those(old(store.workspaces).Keys, StuckIn(old(store.View()), now))|
    {
      hide FailStuck, Stuck, Those, StuckIn;
      ghost var isStuck := StuckIn(store.View(), now);
      var wss := store.workspaces;
      var todo := wss.Keys;
      n, order := 0, [];
      ThoseEnds(wss.Keys, isStuck);
      while todo != {}
        invariant Valid() && todo <= wss.Keys == store.workspaces.Keys
        invariant forall id :: id in order <==> id in wss && id !in todo
        invariant forall id :: id in todo ==> store.workspaces[id] == wss[id]
        invariant View() == R.FailStuckEach(old(View()), order, now)
        invariant n == |Those(wss.Keys - todo, isStuck)|
      {
        var id :| id in todo;
        ThoseGrow(wss.Keys, todo, id, isStuck);
        StuckInReads(old(store.View()), id, now);
        todo := todo - {id};
        FailStuckEachGrows(old(View()), order, id, now);
        order := order + [id];
        var failed := FailIfStuck(id, wss[id], now);
        if failed {
          n := n + 1;
        }
      }
    }

    /** The loop body of ReconcileStuckProvisioning. */
    method FailIfStuck(id: Id, was: Workspace, now: int) returns (failed: bool)
      requires Valid() && id in store.workspaces && store.workspaces[id] == was
      modifies store, runtime
      ensures Valid() && View() == FailStuck(old(View()), id, now) && failed == Stuck(was, now)
      ensures id in store.workspaces && store.workspaces == old(store.workspaces)[id := store.workspaces[id]]
    {
      hide State.Release;
      assert store.workspaces == store.workspaces[id := was];
      if was.status != Provisioning {
        return false;
      }
      if now - was.updatedAt < STUCK_AFTER {
        return false;
      }
      ReleaseLeavesAll(store.View(), was.alloc);
      runtime.Destroy(id);
      if was.alloc != NIL {
        var _ := ledger.Release(was.alloc);
      }
      var w := was.(status := Failed, updatedAt := now);
      var r := store.UpdateWorkspaceIfStatus(id, w, Provisioning);
      return r == Done;
    }

    /** Both releasing loops of Reconcile, before it refreshes the health of the nodes. */
    method ReleaseAndFail(now: int) returns (released: nat)
      requires Valid() && OneOwner(store.workspaces) && NIL !in store.allocs
      modifies store, runtime
      ensures Valid() && R.Reconciles(old(View()), View(), now)
      ensures released == |Those(old(store.allocs).Keys, OrphanIn(old(store.View())))|
                          + |Those(old(store.workspaces).Keys, StuckIn(old(store.View()), now))|
    {
      hide ReleaseOrphan, FailStuck, OneOwner, Those, OrphanIn, StuckIn, Orphan;
      ghost var orphaned := OrphanIn(store.View());
      var allocs := store.allocs;
      var owners := OwnersByAllocation();
      var todo := allocs.Keys;
      released := 0;
      ghost var order: seq<Id> := [];
      ThoseEnds(allocs.Keys, orphaned);
      while todo != {}
        invariant Valid() && todo <= allocs.Keys == store.allocs.Keys && store.workspaces == old(store.workspaces)
        invariant runtime.inst == old(runtime.inst)
        invariant forall a :: a in order <==> a in allocs && a !in todo
        invariant forall a :: a in todo ==> store.allocs[a] == allocs[a]
        invariant forall a :: a in owners ==> Owns(store.View(), owners[a], a)
        invariant forall id :: id in store.workspaces ==> store.workspaces[id].alloc in owners
        invariant store.View() == R.ReleaseEach(old(store.View()), order)
        invariant released == |Those(allocs.Keys - todo, orphaned)|
      {
        var a :| a in todo;
        ThoseGrow(allocs.Keys, todo, a, orphaned);
        OrphanInReads(old(store.View()), store.View(), a);
        todo := todo - {a};
        ReleaseEachGrows(old(store.View()), order, a);
        order := order + [a];
        var done := ReleaseIfOrphan(a, owners);
        if done {
          released := released + 1;
        }
      }
      assert View() == old(View()).(db := R.ReleaseEach(old(store.View()), order));
      StuckInSame(old(store.View()), store.View(), now);
      var stuck;
      ghost var order2;
      stuck, order2 := ReconcileStuckProvisioning(now);
      released := released + stuck;
      assert R.Covers(order, old(store.allocs).Keys);
    }

    /** Which workspace refers to an allocation. */
    method OwnersByAllocation() returns (owners: map<Id, Id>)
      ensures forall a :: a in owners ==> Owns(store.View(), owners[a], a)
      ensures forall id :: id in store.workspaces ==> store.workspaces[id].alloc in owners
    {
      owners := map[];
      var todo := store.workspaces.Keys;
      while todo != {}
        invariant todo <= store.workspaces.Keys
        invariant forall a :: a in owners ==> Owns(store.View(), owners[a], a)
        invariant forall id :: id in store.workspaces && id !in todo ==> store.workspaces[id].alloc in owners
      {
        var id :| id in todo;
        todo := todo - {id};
        owners := owners[store.workspaces[id].alloc := id];
      }
    }

    /** The loop body of Reconcile. */
    method ReleaseIfOrphan(a: Id, owners: map<Id, Id>) returns (done: bool)
      requires Valid() && OneOwner(store.workspaces) && a in store.allocs && a != NIL
      requires forall b :: b in owners ==> Owns(store.View(), owners[b], b)
      requires forall id :: id in store.workspaces ==> store.workspaces[id].alloc in owners
      modifies store
      ensures Valid() && store.View() == ReleaseOrphan(old(store.View()), a)
      ensures done == (old(store.View()).Live(a) && Orphan(old(store.View()), a))
      ensures store.workspaces == old(store.workspaces)
      ensures a in store.allocs && store.allocs == old(store.allocs)[a := store.allocs[a]]
    {
      assert store.allocs == store.allocs[a := store.allocs[a]];
      if store.allocs[a].state == Released {
        return false;
      }
      OrphanByOwner(store.View(), a, owners);
      if a !in owners || store.workspaces[owners[a]].status == Destroyed || store.workspaces[owners[a]].status == Failed {
        var r := store.ReleaseAllocation(a);
        return r == Done;
      }
      return false;
    }

    method Reconcile(now: int) returns (released: nat, staleNodes: nat)
      requires Valid() && C.Conserved(store.View()) && OneOwner(store.workspaces) && NIL !in store.allocs
      modifies store, runtime
      ensures Valid()
      ensures released == |Those(old(store.allocs).Keys, OrphanIn(old(store.View())))|
                          + |Those(old(store.workspaces).Keys, StuckIn(old(store.View()), now))|
      ensures exists y: World :: R.Reconciles(old(View()), y, now)
                && View() == y.(db := y.db.(nodes := AgedNodes(y.db.nodes, now), workspaces := Checked(y.db.(nodes := AgedNodes(y.db.nodes, now)), now)))
    {
      hide R.Reconciles, AgedNodes, Checked, Those, OneOwner, C.Conserved, C.Indexed, OrphanIn, StuckIn, FoundIn;
      released := ReleaseAndFail(now);
      ghost var y := View();
      StillIndexed(old(View()), y, now);
      var degraded;
      degraded, staleNodes := RefreshNodeHealth(now);
    }

    // ----- heartbeat

    method Heartbeat(n: Node, newId: Id, now: int) returns (r: Outcome)
      requires C.Indexed(store.View())
      modifies store
      ensures r == if n.name == "" || n.arch == "" then Fail(ErrInvalidInput) else Done
      ensures store.View() == if r == Done then old(store.View()).Upsert(Reported(old(store.View()), n, newId, now)) else old(store.View())
      ensures r == Done && n.name in old(store.nodeByName) ==>
                var id := old(store.nodeByName)[n.name];
                && id in store.nodes && store.nodes[id].tags == Tags.AfterHeartbeat(old(store.nodes)[id].tags, n.tags)
                && store.nodes[id].used == old(store.nodes)[id].used
    {
      if n.name == "" || n.arch == "" {
        return Fail(ErrInvalidInput);
      }
      var m := n;
      if n.name in store.nodeByName {
        var existing := store.nodes[store.nodeByName[n.name]];
        var merged := Tags.NormalizeNodeTags(existing.tags + n.tags);
        m := m.(id := existing.id, tags := merged);
      } else {
        m := m.(id := newId);
      }
      m := m.(lastHeartbeat := now, ready := true, health := Healthy);
      if m.fabricPath == "degraded" || m.fabricPath == "offline" || m.fabricPath == "stale" {
        m := m.(fabricPath := "p2p");
      }
      if m.role == "" {
        m := m.(role := "worker");
      }
      assert m == Reported(store.View(), n, newId, now);
      store.UpsertNode(m);
      return Done;
    }
  }

  lemma NothingBest(nodes: map<Id, Node>, q: Query, id: Id)
    requires !SomeFits(nodes, q)
    ensures !Best(nodes, q, id)
  {}

  lemma ReadyReadsProjects(s: State, t: State, actor: Actor, project: Id, minRank: int)
    requires t.projects == s.projects
    ensures Ready(t, actor, project, minRank) == Ready(s, actor, project, minRank)
  {}

  lemma ReleaseLeavesAll(s: State, a: Id)
    ensures s.Release(a).0.workspaces == s.workspaces && s.Activate(a).0.workspaces == s.workspaces
    ensures s.Activate(a).1 != Done ==> s.Activate(a).0 == s
  {}

  lemma ExpandFails(s: State, a: Id, d: Amount)
    ensures s.Expand(a, d).1 != Done ==> s.Expand(a, d).0 == s
  {}

  lemma ExpandKeepsWorkspaces(s: State, a: Id, d: Amount)
    ensures s.Expand(a, d).0.workspaces == s.workspaces
  {}
}
