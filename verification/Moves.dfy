/** Which operation may move a workspace from which status to which. */
module Moves {
  import opened Amounts
  import opened Models
  import opened Placement
  import opened Store
  import opened App
  import opened AppInv
  import opened AppSteps
  import C = Conservation

  predicate AsksDestroy(actor: Actor, from: Status, to: Status) {
    && !from.ReviewInFlight() && !from.Gone()
    && to == if actor.platformAdmin then Destroyed else if actor.CanApprove() then DestroyPendingPlatform else DestroyRequested
  }

  predicate Allowed(x: World, op: Op, id: Id, from: Status, to: Status) {
    match op
    case OpApprove(i, _, _) => i == id && from == Requested && to == Provisioning
    case OpReject(i, _) => i == id && from == Requested && to == Rejected
    case OpFinishProvision(i, _, launched, _) => i == id && from == Provisioning && to == if launched then Running else Failed
    case OpRequestDestroy(i, actor) => i == id && AsksDestroy(actor, from, to)
    case OpApproveDestroyProject(i, actor) => i == id && actor.CanApprove() && from == DestroyRequested && to == DestroyPendingPlatform
    case OpApproveDestroyPlatform(i, actor) => i == id && actor.platformAdmin && from == DestroyPendingPlatform && to == Destroyed
    case OpRejectDestroyProject(i, actor) =>
      i == id && actor.CanApprove() && from == DestroyRequested && to == RestoredStatus(x.db, id)
    case OpRejectDestroyPlatform(i, actor) =>
      i == id && actor.platformAdmin && from == DestroyPendingPlatform && to == RestoredStatus(x.db, id)
    case OpDestroy(i, actor) => i == id && if actor.platformAdmin then to == Destroyed else AsksDestroy(actor, from, to)
    case OpStop(i, _) => i == id && !from.Closed() && from != Requested && to == Stopped
    case OpStart(i, _) => i == id && !from.Closed() && from != Requested && to == Running
    case OpWake(i) => i == id && from in {Suspended, Stopped} && to == Running
    case OpSuspendIdle(i, _) => i == id && from in {Running, FabricDegraded} && to == Suspended
    case OpHealth(i) => i == id && from.HealthActive() && to in {Running, FabricDegraded, NodeLost}
    case OpFailStuck(i) => i == id && from == Provisioning && to == Failed
    case _ => false
  }

  /** id is still there, and its status is as before or was moved as the table allows; only creating adds one. */
  ghost predicate MovesAsAllowed(x: World, op: Op, y: World, id: Id) {
    if id in x.db.workspaces then
      && id in y.db.workspaces
      && (var from, to := x.db.workspaces[id].status, y.db.workspaces[id].status; from != to ==> Allowed(x, op, id, from, to))
    else
      id in y.db.workspaces ==> op.OpCreate? && op.draw.ws == id && y.db.workspaces[id].status in {Requested, Provisioning}
  }

  /** At most the workspace id is written. */
  predicate OnlyTouches(s: State, t: State, id: Id) {
    t.workspaces == s.workspaces || (id in t.workspaces && t.workspaces == s.workspaces[id := t.workspaces[id]])
  }

  predicate Moved(s: State, t: State, id: Id, to: Status) { id in t.workspaces && t.workspaces[id].status == to }

  predicate Kept(s: State, t: State, id: Id) {
    if id in s.workspaces then id in t.workspaces && t.workspaces[id].status == s.workspaces[id].status
    else id !in t.workspaces
  }

  lemma ProvisionTouches(s: State, d: Draft, plan: Plan, arch: string, actor: Actor, draw: Draw, now: int)
    ensures var t := ProvisionNew(s, d, plan, arch, actor, draw, now).0;
            OnlyTouches(s, t, draw.ws) && (t.workspaces == s.workspaces || Moved(s, t, draw.ws, Provisioning))
  {
    if Best(s.nodes, Query(arch, plan.size, false), draw.place) {
      var a := Allocation(draw.alloc, d.project, draw.place, plan.size, arch, Reserved);
      TakeEffect(s, draw.place, a);
      ReleaseEffect(s.Take(draw.place, a), draw.alloc);
      hide State.Take, State.Release;
    }
  }

  lemma RequestTouches(s: State, d: Draft, plan: Plan, arch: string, actor: Actor, draw: Draw, now: int)
    ensures var t := RequestWorkspace(s, d, plan, arch, actor, draw, now).0;
            OnlyTouches(s, t, draw.ws) && (t.workspaces == s.workspaces || Moved(s, t, draw.ws, Requested))
  {}

  lemma CreateTouches(s: State, d: Draft, actor: Actor, draw: Draw, now: int)
    ensures var t := CreateWorkspace(s, d, actor, draw, now).0;
            OnlyTouches(s, t, draw.ws)
            && (t.workspaces == s.workspaces || Moved(s, t, draw.ws, Provisioning) || Moved(s, t, draw.ws, Requested))
  {
    hide CheckBudget, Ready, ProvisionNew, RequestWorkspace, NormalizeArch, ResolveSpec;
    var plan := ResolveSpec(d.planName, d.size);
    if plan.Some? {
      ProvisionTouches(s, d, plan.value, NormalizeArch(d.arch), actor, draw, now);
      RequestTouches(s, d, plan.value, NormalizeArch(d.arch), actor, draw, now);
    }
  }

  lemma CreateMoves(x: World, op: Op, now: int, id: Id)
    requires op.OpCreate? && Legal(x, op)
    ensures MovesAsAllowed(x, op, Do(x, op, now), id)
  {
    hide CreateWorkspace;
    CreateTouches(x.db, op.draft, op.actor, op.draw, now);
  }

  lemma ApproveMoves(x: World, op: Op, now: int, id: Id)
    requires op.OpApprove? && Legal(x, op)
    ensures MovesAsAllowed(x, op, Do(x, op, now), id)
  {
    hide CheckBudget, Ready, State.Take, Workspace.Spec;
    if op.id in x.db.workspaces && op.draw.place in x.db.nodes {
      var w := x.db.workspaces[op.id];
      TakeEffect(x.db, op.draw.place, Allocation(op.draw.alloc, w.project, op.draw.place, w.Spec().size, NormalArch(w.arch), Reserved));
    }
  }

  lemma DropTouches(x: World, id: Id, alloc: Id)
    ensures DropAborted(x, id, alloc).db.workspaces == x.db.workspaces
  {
    ReleaseEffect(x.db, alloc);
    hide State.Release;
  }

  lemma FinishTouches(x: World, id: Id, alloc: Id, launched: bool, approved: bool, now: int)
    ensures var t := FinishProvision(x, id, alloc, launched, approved, now).db;
            && OnlyTouches(x.db, t, id)
            && (Kept(x.db, t, id) || (id in x.db.workspaces && x.db.workspaces[id].status == Provisioning
                                      && Moved(x.db, t, id, if launched then Running else Failed)))
  {
    DropTouches(x, id, alloc);
    DropTouches(x.(guests := x.guests[id := true]), id, alloc);
    ActivateEffect(x.db, alloc);
    if id in x.db.workspaces {
      ReleaseEffect(x.db.PutWorkspace(id, x.db.workspaces[id].(updatedAt := now, status := Failed)), alloc);
    }
    hide State.Release, State.Activate, DropAborted;
  }

  lemma FinishMoves(x: World, op: Op, now: int, id: Id)
    requires op.OpFinishProvision?
    ensures MovesAsAllowed(x, op, Do(x, op, now), id)
  {
    hide FinishProvision;
    FinishTouches(x, op.id, op.alloc, op.launched, op.approved, now);
  }

  lemma ExpandLeavesWorkspaces(s: State, a: Id, d: Amount)
    ensures s.Expand(a, d).0.workspaces == s.workspaces && s.Expand(a, d).0.audit == s.audit
  {}

  lemma ResizeTouches(x: World, id: Id, actor: Actor, fault: bool, now: int)
    ensures var t := ApproveResize(x, id, actor, fault, now).0.db; OnlyTouches(x.db, t, id) && Kept(x.db, t, id)
  {
    hide CheckBudget, Ready, State.Expand, EffectiveKind, Workspace.Spec;
    if id in x.db.workspaces {
      var w := x.db.workspaces[id];
      var d := w.pending.Minus(w.Spec().size);
      ExpandLeavesWorkspaces(x.db, w.alloc, d);
      var t := x.db.Expand(w.alloc, d).0;
      ExpandLeavesWorkspaces(t, w.alloc, d);
      ExpandLeavesWorkspaces(t, w.alloc, d.Neg());
    }
  }

  lemma RequestResizeTouches(x: World, id: Id, actor: Actor, size: Amount, fault: bool, now: int)
    ensures var t := RequestResize(x, id, actor, size, fault, now).0.db; OnlyTouches(x.db, t, id) && Kept(x.db, t, id)
  {
    hide CheckBudget, Ready, ApproveResize, ResolveSpec, ClassifyResize, Workspace.Spec;
    if id in x.db.workspaces {
      var w := x.db.workspaces[id];
      var target := ResolveSpec("custom", size);
      if target.Some? {
        var kind := ClassifyResize(w.Spec().size, target.value.size).0;
        var y := x.(db := x.db.PutWorkspace(id, w.(pending := target.value.size, resizePending := true, resizeKind := kind, updatedAt := now))
                              .AddAudit(Entry(id, None, "workspace.resize.request", None)));
        ResizeTouches(y, id, actor, fault, now);
      }
    }
  }

  lemma ExecuteDestroyTouches(x: World, id: Id, now: int)
    requires id in x.db.workspaces
    ensures OnlyTouches(x.db, ExecuteDestroy(x, id, now).db, id) && Moved(x.db, ExecuteDestroy(x, id, now).db, id, Destroyed)
  {
    hide State.Release;
    var w := x.db.workspaces[id];
    ReleaseEffect(x.db.PutWorkspace(id, w.(status := Destroying, updatedAt := now)), w.alloc);
  }

  lemma RequestDestroyTouches(x: World, id: Id, actor: Actor, now: int)
    ensures var t := RequestDestroy(x, id, actor, now).0.db;
            && OnlyTouches(x.db, t, id)
            && (Kept(x.db, t, id) || (id in x.db.workspaces && id in t.workspaces
                                      && AsksDestroy(actor, x.db.workspaces[id].status, t.workspaces[id].status)))
  {
    hide ExecuteDestroy, WakeForReview;
    if id in x.db.workspaces {
      ExecuteDestroyTouches(x, id, now);
      WakingLeavesStore(x, id);
    }
  }

  lemma WakingLeavesStore(x: World, id: Id)
    requires id in x.db.workspaces
    ensures WakeForReview(x, id).0.db == x.db
  {}

  lemma DestroyMoves(x: World, op: Op, now: int, id: Id)
    requires op.OpRequestDestroy? || op.OpApproveDestroyPlatform? || op.OpDestroy?
    ensures MovesAsAllowed(x, op, Do(x, op, now), id)
  {
    hide RequestDestroy, ApproveDestroyPlatform, DestroyWorkspace, AsksDestroy, RestoredStatus;
    RequestDestroyTouches(x, op.id, op.actor, now);
    ApprovePlatformTouches(x, op.id, op.actor, now);
    ForceTouches(x, op.id, op.actor, now);
  }

  lemma ForceTouches(x: World, id: Id, actor: Actor, now: int)
    ensures var t := DestroyWorkspace(x, id, actor, now).0.db;
            && OnlyTouches(x.db, t, id)
            && (Kept(x.db, t, id) || (id in x.db.workspaces && id in t.workspaces
                                      && if actor.platformAdmin then t.workspaces[id].status == Destroyed
                                         else AsksDestroy(actor, x.db.workspaces[id].status, t.workspaces[id].status)))
  {
    hide ExecuteDestroy, RequestDestroy, AsksDestroy;
    RequestDestroyTouches(x, id, actor, now);
    if id in x.db.workspaces {
      ExecuteDestroyTouches(x, id, now);
    }
  }

  lemma ApprovePlatformTouches(x: World, id: Id, actor: Actor, now: int)
    ensures var t := ApproveDestroyPlatform(x, id, actor, now).0.db;
            && OnlyTouches(x.db, t, id)
            && (Kept(x.db, t, id) || (id in x.db.workspaces && x.db.workspaces[id].status == DestroyPendingPlatform && actor.platformAdmin
                                      && Moved(x.db, t, id, Destroyed)))
  {
    hide ExecuteDestroy;
    if id in x.db.workspaces {
      ExecuteDestroyTouches(x, id, now);
    }
  }

  lemma ApproveProjectTouches(x: World, id: Id, actor: Actor, now: int)
    ensures var t := ApproveDestroyProject(x, id, actor, now).0.db;
            && OnlyTouches(x.db, t, id)
            && (Kept(x.db, t, id) || (id in x.db.workspaces && x.db.workspaces[id].status == DestroyRequested && actor.CanApprove()
                                      && Moved(x.db, t, id, DestroyPendingPlatform)))
  {}

  lemma RestoreTouches(x: World, id: Id, action: string, now: int)
    requires id in x.db.workspaces
    ensures var t := RestoreAfterReject(x, id, action, now).db;
            OnlyTouches(x.db, t, id) && Moved(x.db, t, id, RestoredStatus(x.db, id))
  {
    hide RestoredStatus;
  }

  lemma ApproveProjectMoves(x: World, op: Op, now: int, id: Id)
    requires op.OpApproveDestroyProject?
    ensures MovesAsAllowed(x, op, Do(x, op, now), id)
  {
    hide RestoredStatus, ApproveDestroyProject;
    ApproveProjectTouches(x, op.id, op.actor, now);
  }

  lemma RejectProjectTouches(x: World, id: Id, actor: Actor, now: int)
    ensures var t := RejectDestroyProject(x, id, actor, now).0.db;
            && OnlyTouches(x.db, t, id)
            && (Kept(x.db, t, id) || (id in x.db.workspaces && x.db.workspaces[id].status == DestroyRequested && actor.CanApprove()
                                      && Moved(x.db, t, id, RestoredStatus(x.db, id))))
  {
    hide RestoredStatus, RestoreAfterReject;
    if id in x.db.workspaces {
      RestoreTouches(x, id, "workspace.destroy.reject_project", now);
    }
  }

  lemma RejectPlatformTouches(x: World, id: Id, actor: Actor, now: int)
    ensures var t := RejectDestroyPlatform(x, id, actor, now).0.db;
            && OnlyTouches(x.db, t, id)
            && (Kept(x.db, t, id) || (id in x.db.workspaces && x.db.workspaces[id].status == DestroyPendingPlatform && actor.platformAdmin
                                      && Moved(x.db, t, id, RestoredStatus(x.db, id))))
  {
    hide RestoredStatus, RestoreAfterReject;
    if id in x.db.workspaces {
      RestoreTouches(x, id, "workspace.destroy.reject_platform", now);
    }
  }

  lemma RejectDestroyMoves(x: World, op: Op, now: int, id: Id)
    requires op.OpRejectDestroyProject? || op.OpRejectDestroyPlatform?
    ensures MovesAsAllowed(x, op, Do(x, op, now), id)
  {
    hide RestoredStatus, RejectDestroyProject, RejectDestroyPlatform, AsksDestroy;
    RejectProjectTouches(x, op.id, op.actor, now);
    RejectPlatformTouches(x, op.id, op.actor, now);
  }

  lemma FailStuckMoves(x: World, op: Op, now: int, id: Id)
    requires op.OpFailStuck?
    ensures MovesAsAllowed(x, op, Do(x, op, now), id)
  {
    hide State.Release;
    if op.id in x.db.workspaces {
      ReleaseEffect(x.db, x.db.workspaces[op.id].alloc);
    }
  }

  lemma RejectMoves(x: World, op: Op, now: int, id: Id)
    requires op.OpReject?
    ensures MovesAsAllowed(x, op, Do(x, op, now), id)
  {}

  lemma StopTouches(x: World, id: Id, actor: Actor, now: int)
    ensures var t := Stop(x, id, actor, now).0.db;
            && OnlyTouches(x.db, t, id)
            && (Kept(x.db, t, id) || (id in x.db.workspaces && !x.db.workspaces[id].status.Closed()
                                      && x.db.workspaces[id].status != Requested && Moved(x.db, t, id, Stopped)))
  {
    hide Ready;
  }

  lemma StartTouches(x: World, id: Id, actor: Actor, now: int)
    ensures var t := Start(x, id, actor, now).0.db;
            && OnlyTouches(x.db, t, id)
            && (Kept(x.db, t, id) || (id in x.db.workspaces && !x.db.workspaces[id].status.Closed()
                                      && x.db.workspaces[id].status != Requested && Moved(x.db, t, id, Running)))
  {
    hide Ready;
  }

  lemma PowerMoves(x: World, op: Op, now: int, id: Id)
    requires op.OpStop? || op.OpStart?
    ensures MovesAsAllowed(x, op, Do(x, op, now), id)
  {
    hide Stop, Start, RestoredStatus, AsksDestroy;
    StopTouches(x, op.id, op.actor, now);
    StartTouches(x, op.id, op.actor, now);
  }

  lemma IdleMoves(x: World, op: Op, now: int, id: Id)
    requires op.OpWake? || op.OpSuspendIdle?
    ensures MovesAsAllowed(x, op, Do(x, op, now), id)
  {}

  /** The table is complete: no operation moves a status in another way. */
  lemma EveryMoveIsAllowed(x: World, op: Op, now: int, id: Id)
    requires Legal(x, op)
    ensures MovesAsAllowed(x, op, Do(x, op, now), id)
  {
    hide ExecuteDestroy, RestoreAfterReject, RequestDestroy, ApproveDestroyProject, CreateWorkspace, ApproveWorkspace, RejectWorkspace,
      FinishProvision, RequestResize, ApproveResize, Stop, Start, Wake, SuspendIdle, FailStuck, State.Release, State.DeleteNode, State.Upsert;
    match op
    case OpCreate(_, _, _) => CreateMoves(x, op, now, id);
    case OpApprove(_, _, _) => ApproveMoves(x, op, now, id);
    case OpFinishProvision(_, _, _, _) => FinishMoves(x, op, now, id);
    case OpRequestResize(i, actor, size, fault) => RequestResizeTouches(x, i, actor, size, fault, now);
    case OpApproveResize(i, actor, fault) => ResizeTouches(x, i, actor, fault, now);
    case OpRequestDestroy(_, _) => DestroyMoves(x, op, now, id);
    case OpApproveDestroyPlatform(_, _) => DestroyMoves(x, op, now, id);
    case OpDestroy(_, _) => DestroyMoves(x, op, now, id);
    case OpApproveDestroyProject(_, _) => ApproveProjectMoves(x, op, now, id);
    case OpRejectDestroyProject(_, _) => RejectDestroyMoves(x, op, now, id);
    case OpRejectDestroyPlatform(_, _) => RejectDestroyMoves(x, op, now, id);
    case OpReject(_, _) => RejectMoves(x, op, now, id);
    case OpRejectResize(_, _) =>
    case OpStop(_, _) => PowerMoves(x, op, now, id);
    case OpStart(_, _) => PowerMoves(x, op, now, id);
    case OpWake(_) => IdleMoves(x, op, now, id);
    case OpSuspendIdle(_, _) => IdleMoves(x, op, now, id);
    case OpHealth(_) =>
    case OpFailStuck(_) => FailStuckMoves(x, op, now, id);
    case OpReleaseOrphan(alloc) => ReleaseEffect(x.db, alloc);
    case OpLog(_) =>
    case OpUpsertNode(n) => assert x.db.Upsert(n).workspaces == x.db.workspaces by { UpsertEffect(x.db, n); }
    case OpDeleteNode(node) => DeleteNodeEffect(x.db, node);
  }

  lemma UpsertEffect(s: State, n: Node)
    ensures s.Upsert(n).workspaces == s.workspaces && s.Upsert(n).allocs == s.allocs && s.Upsert(n).audit == s.audit
  {}

  /** A call on one workspace that leaves the ledger and the set of instances alone. */
  predicate OnlyStatus(x: World, y: World, id: Id) {
    && y.db == x.db.(workspaces := y.db.workspaces, audit := y.db.audit)
    && y.guests.Keys == x.guests.Keys
    && if id !in x.db.workspaces then y == x
       else
         && id in y.db.workspaces
         && y.db.workspaces == x.db.workspaces[id := y.db.workspaces[id]]
         && y.db.workspaces[id].alloc == x.db.workspaces[id].alloc
         && y.db.workspaces[id].project == x.db.workspaces[id].project
  }

  lemma PowerIsQuiet(x: World, id: Id, actor: Actor, now: int)
    ensures OnlyStatus(x, Stop(x, id, actor, now).0, id) && OnlyStatus(x, Start(x, id, actor, now).0, id)
    ensures id !in x.guests ==> Stop(x, id, actor, now).0 == x && Start(x, id, actor, now).0 == x
  {
    hide Ready;
    SelfUpdate(x, id);
  }

  lemma SelfUpdate(x: World, id: Id)
    ensures id in x.db.workspaces ==> x.db.workspaces[id := x.db.workspaces[id]] == x.db.workspaces
  {}

  lemma IdleIsQuiet(x: World, id: Id, hours: int, now: int)
    ensures OnlyStatus(x, Wake(x, id, now).0, id) && OnlyStatus(x, SuspendIdle(x, id, hours, now), id)
  {
    SelfUpdate(x, id);
  }

  lemma HealthIsQuiet(x: World, id: Id, actor: Actor, now: int)
    ensures OnlyStatus(x, x.(db := CheckHealth(x.db, id, now)), id)
    ensures OnlyStatus(x, x.(db := RejectWorkspace(x.db, id, actor, now).0), id)
  {
    hide HealthStatus;
    SelfUpdate(x, id);
  }

  lemma ReviewIsQuiet(x: World, id: Id, actor: Actor, now: int)
    requires !actor.platformAdmin
    ensures OnlyStatus(x, RequestDestroy(x, id, actor, now).0, id)
  {
    hide ExecuteDestroy, OnlyStatus, WakeForReview;
    NothingIsQuiet(x, id);
    if id in x.db.workspaces {
      var asked := Entry(id, None, DESTROY_REQUEST, Some(x.db.workspaces[id].status));
      AskingIsQuiet(x, id, DestroyRequested, [asked], now);
      AskingIsQuiet(x, id, DestroyPendingPlatform, [asked, Entry(id, None, "workspace.destroy.approve_project", None)], now);
      assert x.db.audit + [asked] + [Entry(id, None, "workspace.destroy.approve_project", None)]
          == x.db.audit + [asked, Entry(id, None, "workspace.destroy.approve_project", None)];
    }
  }

  lemma NothingIsQuiet(x: World, id: Id)
    ensures OnlyStatus(x, x, id)
    ensures id in x.db.workspaces ==> OnlyStatus(x, WakeForReview(x, id).0, id)
  {
    SelfUpdate(x, id);
  }

  lemma AskingIsQuiet(x: World, id: Id, st: Status, log: seq<Entry>, now: int)
    requires id in x.db.workspaces
    ensures var y := WakeForReview(x, id).0;
            y.db == x.db
            && OnlyStatus(x, y.(db := y.db.PutWorkspace(id, x.db.workspaces[id].(status := st, updatedAt := now)).(audit := x.db.audit + log)), id)
  {}

  lemma ApprovalIsQuiet(x: World, id: Id, actor: Actor, now: int)
    ensures OnlyStatus(x, ApproveDestroyProject(x, id, actor, now).0, id)
  {
    SelfUpdate(x, id);
  }

  lemma RestoreIsQuiet(x: World, id: Id, actor: Actor, now: int)
    ensures OnlyStatus(x, RejectDestroyProject(x, id, actor, now).0, id)
    ensures OnlyStatus(x, RejectDestroyPlatform(x, id, actor, now).0, id)
  {
    hide RestoreAfterReject;
    if id in x.db.workspaces {
      RestoringIsQuiet(x, id, "workspace.destroy.reject_project", now);
      RestoringIsQuiet(x, id, "workspace.destroy.reject_platform", now);
    }
  }

  lemma RestoringIsQuiet(x: World, id: Id, action: string, now: int)
    requires id in x.db.workspaces
    ensures OnlyStatus(x, RestoreAfterReject(x, id, action, now), id)
  {
    hide RestoredStatus;
    SelfUpdate(x, id);
  }
}
