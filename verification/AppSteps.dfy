/** Every operation of the application keeps the invariant of AppInv, and so does every run of them. */
module AppSteps {
  import opened Amounts
  import opened Models
  import opened Placement
  import opened Store
  import opened App
  import opened AppInv
  import R = Review
  import C = Conservation

  /** Drawn ids are new to the store and to every workspace. */
  ghost predicate FreshDraw(db: State, draw: Draw) {
    && draw.alloc != NIL && draw.alloc !in db.allocs && draw.ws !in db.workspaces
    && forall id :: id in db.workspaces ==> db.workspaces[id].alloc != draw.alloc
  }

  /** The approval would shrink the allocation and the runtime would then refuse. */
  ghost predicate FailingDowngrade(x: World, id: Id, fault: bool) {
    id in x.db.workspaces && x.db.workspaces[id].resizePending && EffectiveKind(x.db.workspaces[id]) == Downgrade
    && (fault || id !in x.guests)
  }

  /** A worker works for the workspace that owns its allocation; other log entries are not destroy requests. */
  ghost predicate Legal(x: World, op: Op) {
    match op
    case OpCreate(_, _, draw) => FreshDraw(x.db, draw)
    case OpApprove(_, _, draw) => FreshDraw(x.db, draw)
    case OpFinishProvision(id, alloc, _, _) => alloc != NIL && (id in x.db.workspaces ==> x.db.workspaces[id].alloc == alloc)
    case OpApproveResize(id, _, fault) => !FailingDowngrade(x, id, fault)
    case OpLog(e) => e.action != DESTROY_REQUEST
    case OpUpsertNode(n) => C.Legal(x.db, C.Upsert(n))
    case _ => true
  }

  /** The workspace is written back with another status, and one entry is logged. */
  lemma StatusMoveKeepsInv(s: State, id: Id, w: Workspace)
    requires Inv(s) && id in s.workspaces
    requires var was := s.workspaces[id];
             w.alloc == was.alloc && w.size == was.size && w.project == was.project
             && (w.resizePending ==> was.resizePending && w.pending == was.pending && w.resizeKind == was.resizeKind)
    requires w.status != Requested && (w.status.Unbudgeted() ==> !s.Live(w.alloc))
    requires w.status.ReviewInFlight() && R.Origin(s.audit, id) == Some(Failed) ==> !s.Live(w.alloc)
    ensures Inv(s.PutWorkspace(id, w))
  {
    assert WsOk(s, id, s.workspaces[id]);
    hide C.Conserved, OneOwner;
    PutKeepsInv(s, id, w);
  }

  lemma CreateKeepsInv(s: State, d: Draft, actor: Actor, draw: Draw, now: int)
    requires Inv(s) && FreshDraw(s, draw)
    ensures Inv(CreateWorkspace(s, d, actor, draw, now).0)
  {
    hide C.Conserved, OneOwner, AllOk, CheckBudget;
    var plan := ResolveSpec(d.planName, d.size);
    var arch := NormalizeArch(d.arch);
    if plan.Some? {
      if actor.CanApprove() {
        ProvisionKeepsInv(s, d, plan.value, arch, actor, draw, now);
      } else {
        RequestKeepsInv(s, d, plan.value, arch, actor, draw, now);
      }
    }
  }

  lemma RequestKeepsInv(s: State, d: Draft, plan: Plan, arch: string, actor: Actor, draw: Draw, now: int)
    requires Inv(s) && FreshDraw(s, draw) && ValidSpec(plan.size)
    ensures Inv(RequestWorkspace(s, d, plan, arch, actor, draw, now).0)
  {
    var w := NewWorkspace(d, plan, arch, actor.id, NIL, NIL, Requested, now);
    assert WsOk(s, draw.ws, w);
    hide C.Conserved, OneOwner, AllOk, WsOk;
    NewOwnerKeepsInv(s, draw.ws, w);
    AuditKeepsInv(s.PutWorkspace(draw.ws, w), Entry(draw.ws, None, "workspace.request", None));
  }

  lemma FirstOwnerIsOk(s: State, node: Id, a: Allocation, id: Id, w: Workspace)
    requires node in s.nodes && w.alloc == a.id && w.size == a.size && w.project == a.project
    requires ValidSpec(w.size) && w.status == Provisioning && !w.resizePending
    ensures WsOk(s.Take(node, a), id, w)
  {
    TakeEffect(s, node, a);
    hide State.Take, ValidSpec;
  }

  lemma ProvisionKeepsInv(s: State, d: Draft, plan: Plan, arch: string, actor: Actor, draw: Draw, now: int)
    requires Inv(s) && FreshDraw(s, draw) && ValidSpec(plan.size)
    ensures Inv(ProvisionNew(s, d, plan, arch, actor, draw, now).0)
  {
    hide Inv, WsOk, State.Take, State.Release, C.Conserved;
    var a := Allocation(draw.alloc, d.project, draw.place, plan.size, arch, Reserved);
    if Best(s.nodes, Query(arch, plan.size, false), draw.place) {
      var t := s.Take(draw.place, a);
      TakeEffect(s, draw.place, a);
      TakeKeepsInv(s, draw.place, a);
      var w := NewWorkspace(d, plan, t.nodes[draw.place].arch, actor.id, draw.place, draw.alloc, Provisioning, now);
      FirstOwnerIsOk(s, draw.place, a, draw.ws, w);
      NewOwnerKeepsInv(t, draw.ws, w);
      ReleaseKeepsInv(t, draw.alloc);
    }
  }

  lemma ApproveKeepsInv(s: State, id: Id, actor: Actor, draw: Draw, now: int)
    requires Inv(s) && FreshDraw(s, draw)
    ensures Inv(ApproveWorkspace(s, id, actor, draw, now).0)
  {
    hide C.Conserved, OneOwner, State.Take, CheckBudget, Ready;
    if id in s.workspaces && s.workspaces[id].status == Requested {
      var was := s.workspaces[id];
      assert WsOk(s, id, was);
      assert was.Spec().size == was.size && !was.resizePending;
      hide Inv, WsOk;
      if Best(s.nodes, Query(NormalArch(was.arch), was.size, false), draw.place) {
        var a := Allocation(draw.alloc, was.project, draw.place, was.size, NormalArch(was.arch), Reserved);
        var t := s.Take(draw.place, a);
        TakeEffect(s, draw.place, a);
        TakeKeepsInv(s, draw.place, a);
        var w := was.(arch := t.nodes[draw.place].arch, node := draw.place, alloc := draw.alloc, status := Provisioning, updatedAt := now);
        FirstOwnerIsOk(s, draw.place, a, id, w);
        NewOwnerKeepsInv(t, id, w);
      }
    }
  }

  lemma DropKeepsInv(x: World, id: Id, alloc: Id)
    requires Inv(x.db)
    ensures Inv(DropAborted(x, id, alloc).db)
  {
    hide Inv, State.Release;
    ReleaseKeepsInv(x.db, alloc);
  }

  lemma FinishKeepsInv(x: World, id: Id, alloc: Id, launched: bool, approved: bool, now: int)
    requires Inv(x.db) && Legal(x, OpFinishProvision(id, alloc, launched, approved))
    ensures Inv(FinishProvision(x, id, alloc, launched, approved, now).db)
  {
    var s := x.db;
    DropKeepsInv(x.(guests := x.guests[id := true]), id, alloc);
    DropKeepsInv(x, id, alloc);
    if id in s.workspaces && s.workspaces[id].status == Provisioning {
      if launched {
        FinishLaunchedKeepsInv(s, id, alloc, approved, now);
      } else {
        FinishFailedKeepsInv(s, id, alloc, now);
      }
    }
    hide Inv, State.Release, State.Activate;
  }

  lemma FinishLaunchedKeepsInv(s: State, id: Id, alloc: Id, approved: bool, now: int)
    requires Inv(s) && id in s.workspaces && s.workspaces[id].status == Provisioning
    ensures var w := s.workspaces[id].(updatedAt := now, status := Running);
            Inv(s.Activate(alloc).0.PutWorkspace(id, w).AddAudit(Entry(id, None, if approved then "workspace.approve" else "workspace.create", None)))
  {
    hide Inv, WsOk, State.Activate, C.Conserved;
    var t := s.Activate(alloc).0;
    ActivateEffect(s, alloc);
    ActivateKeepsInv(s, alloc);
    var w := s.workspaces[id].(updatedAt := now, status := Running);
    StatusMoveKeepsInv(t, id, w);
    AuditKeepsInv(t.PutWorkspace(id, w), Entry(id, None, if approved then "workspace.approve" else "workspace.create", None));
  }

  /** Marking failed first and releasing after leaves what releasing first would. */
  lemma FinishFailedKeepsInv(s: State, id: Id, alloc: Id, now: int)
    requires Inv(s) && id in s.workspaces && s.workspaces[id].status == Provisioning && s.workspaces[id].alloc == alloc
    ensures Inv(s.PutWorkspace(id, s.workspaces[id].(updatedAt := now, status := Failed)).Release(alloc).0)
  {
    var w := s.workspaces[id].(updatedAt := now, status := Failed);
    ReleaseCommutes(s, id, w, alloc);
    ReleaseEffect(s, alloc);
    ReleaseKeepsInv(s, alloc);
    hide Inv, State.Release;
    StatusMoveKeepsInv(s.Release(alloc).0, id, w);
  }

  lemma ReleaseCommutes(s: State, id: Id, w: Workspace, alloc: Id)
    ensures s.PutWorkspace(id, w).Release(alloc).0 == s.Release(alloc).0.PutWorkspace(id, w)
  {}

  lemma ReleaseNothing(s: State)
    ensures NIL !in s.allocs ==> s.Release(NIL).0 == s
  {}

  lemma ExecuteDestroyKeepsInv(x: World, id: Id, now: int)
    requires Inv(x.db) && id in x.db.workspaces
    ensures Inv(ExecuteDestroy(x, id, now).db)
  {
    hide AllOk, OneOwner, State.Release, C.Conserved;
    var s, w := x.db, x.db.workspaces[id];
    var t := s.Release(w.alloc).0;
    ReleaseCommutes(s, id, w.(status := Destroying, updatedAt := now), w.alloc);
    ReleaseNothing(s);
    ReleaseEffect(s, w.alloc);
    ReleaseKeepsInv(s, w.alloc);
    hide Inv;
    var done := w.(status := Destroyed, updatedAt := now);
    assert ExecuteDestroy(x, id, now).db == t.PutWorkspace(id, done).AddAudit(Entry(id, None, "workspace.destroy", None));
    hide ExecuteDestroy;
    StatusMoveKeepsInv(t, id, done);
    AuditKeepsInv(t.PutWorkspace(id, done), Entry(id, None, "workspace.destroy", None));
  }

  /** A status move that is also logged, by an entry that is no destroy request. */
  lemma LoggedMoveKeepsInv(s: State, id: Id, st: Status, w: Workspace, e: Entry)
    requires Inv(s) && id in s.workspaces && e.action != DESTROY_REQUEST
    requires w == s.workspaces[id].(status := st, updatedAt := w.updatedAt, lastActivityAt := w.lastActivityAt)
    requires st != Requested && (st.Unbudgeted() ==> !s.Live(w.alloc))
    requires st.ReviewInFlight() && R.Origin(s.audit, id) == Some(Failed) ==> !s.Live(w.alloc)
    ensures Inv(s.PutWorkspace(id, w)) && Inv(s.PutWorkspace(id, w).AddAudit(e))
  {
    hide Inv;
    StatusMoveKeepsInv(s, id, w);
    AuditKeepsInv(s.PutWorkspace(id, w), e);
  }

  lemma EnterReviewKeepsAllOk(s: State, id: Id, st: Status, now: int, e: Entry)
    requires AllOk(s) && id in s.workspaces && st.ReviewInFlight()
    requires e == Entry(id, None, DESTROY_REQUEST, Some(s.workspaces[id].status))
    ensures AllOk(s.AddAudit(e).PutWorkspace(id, s.workspaces[id].(status := st, updatedAt := now)))
  {
    var t := s.AddAudit(e).PutWorkspace(id, s.workspaces[id].(status := st, updatedAt := now));
    forall j | j in t.workspaces ensures WsOk(t, j, t.workspaces[j]) {
      R.OriginOfAppended(s.audit, e, j);
      hide R.Origin;
      assert WsOk(s, j, s.workspaces[j]);
    }
  }

  /** Entering review logs the status it starts from; nothing failed holds an allocation. */
  lemma EnterReviewKeepsInv(s: State, id: Id, st: Status, now: int, e: Entry)
    requires Inv(s) && id in s.workspaces && st.ReviewInFlight()
    requires e == Entry(id, None, DESTROY_REQUEST, Some(s.workspaces[id].status))
    ensures Inv(s.AddAudit(e).PutWorkspace(id, s.workspaces[id].(status := st, updatedAt := now)))
  {
    hide C.Conserved, R.Origin, AllOk;
    var w := s.workspaces[id].(status := st, updatedAt := now);
    var t := s.AddAudit(e).PutWorkspace(id, w);
    ConservedIgnores(s, t);
    PutKeepsOwners(s.workspaces, id, w);
    EnterReviewKeepsAllOk(s, id, st, now, e);
  }

  lemma RequestDestroyKeepsInv(x: World, id: Id, actor: Actor, now: int)
    requires Inv(x.db)
    ensures Inv(RequestDestroy(x, id, actor, now).0.db)
  {
    hide Inv, ExecuteDestroy;
    if id in x.db.workspaces {
      var s, w := x.db, x.db.workspaces[id];
      var asked := Entry(id, None, DESTROY_REQUEST, Some(w.status));
      ExecuteDestroyKeepsInv(x, id, now);
      EnterReviewKeepsInv(s, id, DestroyRequested, now, asked);
      EnterReviewKeepsInv(s, id, DestroyPendingPlatform, now, asked);
      AuditKeepsInv(s.AddAudit(asked).PutWorkspace(id, w.(status := DestroyPendingPlatform, updatedAt := now)),
                    Entry(id, None, "workspace.destroy.approve_project", None));
    }
  }

  lemma ApproveProjectKeepsInv(x: World, id: Id, actor: Actor, now: int)
    requires Inv(x.db)
    ensures Inv(ApproveDestroyProject(x, id, actor, now).0.db)
  {
    hide C.Conserved, OneOwner, R.Origin;
    if id in x.db.workspaces && x.db.workspaces[id].status == DestroyRequested {
      assert WsOk(x.db, id, x.db.workspaces[id]);
      assert R.Origin(x.db.audit, id) == Some(Failed) ==> !x.db.Live(x.db.workspaces[id].alloc);
      hide Inv, WsOk;
      LoggedMoveKeepsInv(x.db, id, DestroyPendingPlatform, x.db.workspaces[id].(status := DestroyPendingPlatform, updatedAt := now),
                         Entry(id, None, "workspace.destroy.approve_project", None));
    }
    hide Inv;
  }

  lemma RestoreKeepsInv(x: World, id: Id, action: string, now: int)
    requires Inv(x.db) && id in x.db.workspaces && x.db.workspaces[id].status.ReviewInFlight() && action != DESTROY_REQUEST
    ensures Inv(RestoreAfterReject(x, id, action, now).db)
  {
    hide C.Conserved, OneOwner, R.Origin, R.Newer, R.HasRequest, RestoredStatus;
    var st := RestoredStatus(x.db, id);
    R.RestoredFromLog(x.db, id);
    assert WsOk(x.db, id, x.db.workspaces[id]);
    assert !st.ReviewInFlight() && st != Requested && (st.Unbudgeted() ==> !x.db.Live(x.db.workspaces[id].alloc));
    hide Inv, WsOk, RestoreStatus;
    LoggedMoveKeepsInv(x.db, id, st, x.db.workspaces[id].(status := st, updatedAt := now), Entry(id, None, action, None));
  }

  lemma StopKeepsInv(x: World, id: Id, actor: Actor, now: int)
    requires Inv(x.db)
    ensures Inv(Stop(x, id, actor, now).0.db)
  {
    hide Inv, Ready;
    if id in x.db.workspaces {
      LoggedMoveKeepsInv(x.db, id, Stopped, x.db.workspaces[id].(status := Stopped, updatedAt := now), Entry(id, None, "workspace.stop", None));
    }
  }

  lemma StartKeepsInv(x: World, id: Id, actor: Actor, now: int)
    requires Inv(x.db)
    ensures Inv(Start(x, id, actor, now).0.db) && Inv(Wake(x, id, now).0.db)
  {
    hide Inv, Ready;
    if id in x.db.workspaces {
      LoggedMoveKeepsInv(x.db, id, Running, x.db.workspaces[id].(status := Running, lastActivityAt := now, updatedAt := now),
                         Entry(id, None, "workspace.start", None));
    }
  }

  lemma SuspendKeepsInv(x: World, id: Id, defaultHours: int, now: int)
    requires Inv(x.db)
    ensures Inv(SuspendIdle(x, id, defaultHours, now).db)
  {
    hide Inv, ShouldSuspend;
    if id in x.db.workspaces {
      LoggedMoveKeepsInv(x.db, id, Suspended, x.db.workspaces[id].(status := Suspended, updatedAt := now),
                         Entry(id, None, "workspace.idle_suspend", None));
    }
  }

  lemma HealthKeepsInv(s: State, id: Id, now: int)
    requires Inv(s)
    ensures Inv(CheckHealth(s, id, now))
  {
    hide Inv;
    if id in s.workspaces && HealthStatus(s, s.workspaces[id]) != s.workspaces[id].status {
      var st := HealthStatus(s, s.workspaces[id]);
      assert st.HealthActive();
      hide HealthStatus;
      StatusMoveKeepsInv(s, id, s.workspaces[id].(status := st, updatedAt := now));
    }
  }

  lemma RejectKeepsInv(s: State, id: Id, actor: Actor, now: int)
    requires Inv(s)
    ensures Inv(RejectWorkspace(s, id, actor, now).0)
  {
    if id in s.workspaces && s.workspaces[id].status == Requested {
      assert WsOk(s, id, s.workspaces[id]);
      hide Inv;
      LoggedMoveKeepsInv(s, id, Rejected, s.workspaces[id].(status := Rejected, updatedAt := now), Entry(id, None, "workspace.reject", None));
    }
    hide Inv;
  }

  lemma FailStuckKeepsInv(x: World, id: Id, now: int)
    requires Inv(x.db)
    ensures Inv(FailStuck(x, id, now).db)
  {
    if id in x.db.workspaces && Stuck(x.db.workspaces[id], now) {
      var s, w := x.db, x.db.workspaces[id];
      ReleaseNothing(s);
      ReleaseEffect(s, w.alloc);
      ReleaseKeepsInv(s, w.alloc);
      hide AllOk, OneOwner, C.Conserved, State.Release;
      StatusMoveKeepsInv(s.Release(w.alloc).0, id, w.(status := Failed, updatedAt := now));
    }
    hide Inv;
  }

  lemma RejectResizeKeepsInv(x: World, id: Id, actor: Actor, now: int)
    requires Inv(x.db)
    ensures Inv(RejectResize(x, id, actor, now).0.db)
  {
    if id in x.db.workspaces && x.db.workspaces[id].resizePending {
      assert WsOk(x.db, id, x.db.workspaces[id]);
      hide Inv;
      var w := x.db.workspaces[id].(pending := ZERO, resizePending := false, updatedAt := now);
      StatusMoveKeepsInv(x.db, id, w);
      AuditKeepsInv(x.db.PutWorkspace(id, w), Entry(id, None, "workspace.resize.reject", None));
    }
    hide Inv;
  }

  // ----- resizing

  lemma RequestResizePutKeepsInv(x: World, id: Id, target: Amount, kind: ResizeKind, now: int)
    requires Inv(x.db) && id in x.db.workspaces && !x.db.workspaces[id].resizePending && x.db.workspaces[id].status != Requested
    requires ValidSpec(target) && ClassifyResize(x.db.workspaces[id].size, target) == (kind, Done)
    ensures var w := x.db.workspaces[id].(pending := target, resizePending := true, resizeKind := kind, updatedAt := now);
            Inv(x.db.PutWorkspace(id, w).AddAudit(Entry(id, None, "workspace.resize.request", None)))
  {
    hide C.Conserved, OneOwner, R.Origin, ClassifyResize, ValidSpec;
    var w := x.db.workspaces[id].(pending := target, resizePending := true, resizeKind := kind, updatedAt := now);
    assert WsOk(x.db, id, x.db.workspaces[id]);
    assert WsOk(x.db, id, w);
    hide Inv, WsOk;
    PutKeepsInv(x.db, id, w);
    AuditKeepsInv(x.db.PutWorkspace(id, w), Entry(id, None, "workspace.resize.request", None));
  }

  lemma ExpandExact(s: State, a: Id, d: Amount)
    requires s.Expand(a, d).1 == Done && s.allocs[a].size.Plus(d).NonNegative() && s.nodes[s.allocs[a].node].used.Plus(d).NonNegative()
    ensures var node := s.allocs[a].node;
            s.Expand(a, d).0 == s.SetUsed(node, s.nodes[node].used.Plus(d)).SetAlloc(a, s.allocs[a].(size := s.allocs[a].size.Plus(d)))
  {}

  lemma GivingBackIsAllowed(s: State, a: Id, d: Amount)
    requires s.Live(a) && s.allocs[a].node in s.nodes && d.Within(ZERO)
    ensures s.Expand(a, d).1 == Done
  {}

  /** Overwriting a node's used amount and an allocation once more with the old values restores the state. */
  lemma Rewritten(s: State, node: Id, used: Amount, id: Id, a: Allocation)
    requires node in s.nodes && id in s.allocs
    ensures var t := s.SetUsed(node, used).SetAlloc(id, a);
            && node in t.nodes && id in t.allocs && t.nodes[node].used == used && t.allocs[id] == a
            && t.SetUsed(node, s.nodes[node].used).SetAlloc(id, s.allocs[id]) == s
  {
    var t := s.SetUsed(node, used).SetAlloc(id, a);
    assert t.nodes[node].(used := s.nodes[node].used) == s.nodes[node];
    assert t.nodes[node := s.nodes[node]] == s.nodes;
    assert t.allocs[id := s.allocs[id]] == s.allocs;
  }

  lemma BackAgain(s: State, t: State, a: Id, d: Amount)
    requires s.Live(a) && s.allocs[a].node in s.nodes && ZERO.Within(d)
    requires s.allocs[a].size.NonNegative() && s.nodes[s.allocs[a].node].used.NonNegative()
    requires t == s.SetUsed(s.allocs[a].node, s.nodes[s.allocs[a].node].used.Plus(d)).SetAlloc(a, s.allocs[a].(size := s.allocs[a].size.Plus(d)))
    ensures t.Expand(a, d.Neg()) == (s, Done)
  {
    var node, was := s.allocs[a].node, s.allocs[a];
    var used := s.nodes[node].used;
    Rewritten(s, node, used.Plus(d), a, was.(size := was.size.Plus(d)));
    hide State.SetUsed, State.SetAlloc;
    assert used.Plus(d).Plus(d.Neg()) == used && was.size.Plus(d).Plus(d.Neg()) == was.size;
    GivingBackIsAllowed(t, a, d.Neg());
    ExpandExact(t, a, d.Neg());
    hide State.Expand;
  }

  /** There and back again: an expansion is undone exactly. */
  lemma ExpandRoundTrip(s: State, a: Id, d: Amount)
    requires C.Conserved(s) && s.Expand(a, d).1 == Done && ZERO.Within(d)
    ensures s.Expand(a, d).0.Expand(a, d.Neg()) == (s, Done)
  {
    hide C.Conserved, State.SetUsed, State.SetAlloc;
    C.LiveWithinUsed(s, a);
    ExpandExact(s, a, d);
    hide State.Expand;
    BackAgain(s, s.Expand(a, d).0, a, d);
  }

  /** What the invariant says about a workspace whose pending resize can be applied. */
  lemma PendingFacts(s: State, id: Id)
    requires Inv(s) && id in s.workspaces && s.workspaces[id].resizePending && s.Live(s.workspaces[id].alloc)
    ensures var w := s.workspaces[id];
            var delta := w.pending.Minus(w.size);
            && w.Spec().size == w.size && s.allocs[w.alloc].size == w.size && ValidSpec(w.pending) && delta != ZERO
            && w.alloc != NIL && EffectiveKind(w) == w.resizeKind
            && ((w.resizeKind == Upgrade && ZERO.Within(delta)) || (w.resizeKind == Downgrade && delta.Within(ZERO)))
  {
    hide C.Conserved, OneOwner, R.Origin;
    assert WsOk(s, id, s.workspaces[id]);
  }

  lemma ApproveResizeKeepsInv(x: World, id: Id, actor: Actor, fault: bool, now: int)
    requires Inv(x.db) && !FailingDowngrade(x, id, fault)
    ensures Inv(ApproveResize(x, id, actor, fault, now).0.db)
  {
    hide C.Conserved, OneOwner, AllOk, Ready, CheckBudget, State.Expand, EffectiveKind;
    if id in x.db.workspaces && x.db.workspaces[id].resizePending {
      var s, w := x.db, x.db.workspaces[id];
      var delta := w.pending.Minus(w.Spec().size);
      if s.Expand(w.alloc, delta).1 == Done {
        ExpandEffect(s, w.alloc, delta);
        PendingFacts(s, id);
        hide Inv;
        if fault || id !in x.guests {
          RollbackRestores(s, w.alloc, delta);
        } else {
          AppliedResizeKeepsInv(s, id, now);
        }
      }
    }
  }

  lemma RollbackRestores(s: State, a: Id, d: Amount)
    requires Inv(s) && s.Expand(a, d).1 == Done
    ensures ZERO.Within(d) ==> s.Expand(a, d).0.Expand(a, d.Neg()) == (s, Done)
  {
    if ZERO.Within(d) {
      ExpandRoundTrip(s, a, d);
    }
  }

  lemma AppliedResizeKeepsInv(s: State, id: Id, now: int)
    requires Inv(s) && id in s.workspaces && s.workspaces[id].resizePending && s.Live(s.workspaces[id].alloc)
    requires s.Expand(s.workspaces[id].alloc, s.workspaces[id].pending.Minus(s.workspaces[id].size)).1 == Done
    ensures var w := s.workspaces[id];
            Inv(s.Expand(w.alloc, w.pending.Minus(w.size)).0.PutWorkspace(id, Resized(w, now))
                  .AddAudit(Entry(id, None, "workspace.resize.approve", None)))
  {
    PendingFacts(s, id);
    hide Inv, State.Expand, EffectiveKind, ValidSpec;
    var w := s.workspaces[id];
    var d := w.pending.Minus(w.size);
    assert w.size.Plus(d) == w.pending;
    ResizeKeepsInv(s, id, d, Resized(w, now));
    AuditKeepsInv(s.Expand(w.alloc, d).0.PutWorkspace(id, Resized(w, now)), Entry(id, None, "workspace.resize.approve", None));
  }

  /** A resize that the runtime refuses restores everything exactly when it was not a downgrade. */
  lemma FailedResizeRestoresExactly(x: World, id: Id, actor: Actor, fault: bool, now: int)
    requires Inv(x.db) && ApproveResize(x, id, actor, fault, now).1 == Fail(ErrRuntime)
    ensures ApproveResize(x, id, actor, fault, now).0 == x <==> EffectiveKind(x.db.workspaces[id]) != Downgrade
  {
    hide C.Conserved, OneOwner, AllOk, ProjectUsed, State.Expand, EffectiveKind;
    var s, w := x.db, x.db.workspaces[id];
    var delta := w.pending.Minus(w.Spec().size);
    ExpandIsNoRuntime(s, w.alloc, delta);
    ExpandEffect(s, w.alloc, delta);
    PendingFacts(s, id);
    hide Inv;
    if EffectiveKind(w) == Downgrade {
      DoubleShrink(s, w.alloc, delta);
    } else {
      RollbackRestores(s, w.alloc, delta);
    }
  }

  lemma ExpandIsNoRuntime(s: State, a: Id, d: Amount)
    ensures s.Expand(a, d).1 != Fail(ErrRuntime)
  {}

  /** Shrinking twice is not nothing. */
  lemma DoubleShrink(s: State, a: Id, d: Amount)
    requires s.Expand(a, d).1 == Done && d.Within(ZERO) && d != ZERO && s.allocs[a].size.Plus(d).NonNegative()
    ensures s.Expand(a, d).0.Expand(a, d).0.allocs[a].size != s.allocs[a].size
  {
    ExpandEffect(s, a, d);
    var t := s.Expand(a, d).0;
    assert t.allocs[a].size == s.allocs[a].size.Plus(d);
    if t.Expand(a, d).1 == Done {
      ExpandEffect(t, a, d);
      hide State.Expand;
      assert t.Expand(a, d).0.allocs[a].size == t.allocs[a].size.Plus(d).Floored();
    }
  }

  /** Neither applying a pending resize nor rolling back an upgrade ever reaches a clamp of the store. */
  lemma ResizeClampsIdle(s: State, id: Id)
    requires Inv(s) && id in s.workspaces && s.workspaces[id].resizePending && s.Live(s.workspaces[id].alloc)
    ensures var w := s.workspaces[id];
            var d := w.pending.Minus(w.Spec().size);
            && C.ClampsIdle(s, C.Expand(w.alloc, d))
            && (s.Expand(w.alloc, d).1 == Done && w.resizeKind == Upgrade
                ==> C.ClampsIdle(s.Expand(w.alloc, d).0, C.Expand(w.alloc, d.Neg())))
  {
    PendingFacts(s, id);
    InvConserves(s);
    hide Inv, EffectiveKind, C.ClampsIdle, C.Conserved, State.Expand;
    var w := s.workspaces[id];
    AppliedClampsIdle(s, w.alloc, w.size, w.pending);
  }

  lemma InvConserves(s: State)
    requires Inv(s)
    ensures C.Conserved(s)
  {}

  lemma AppliedClampsIdle(s: State, a: Id, size: Amount, pending: Amount)
    requires C.Conserved(s) && s.Live(a) && s.allocs[a].size == size && ValidSpec(pending)
    ensures var d := pending.Minus(size);
            && C.ClampsIdle(s, C.Expand(a, d))
            && (s.Expand(a, d).1 == Done && ZERO.Within(d) ==> C.ClampsIdle(s.Expand(a, d).0, C.Expand(a, d.Neg())))
  {
    var d := pending.Minus(size);
    LiveSizeNonNegative(s, a);
    ThereAndBack(size, pending);
    hide C.ClampsIdle, C.Conserved, State.Expand, ValidSpec, Amount.Plus, Amount.Minus, Amount.Neg, Amount.Floored, Amount.NonNegative;
    C.ExpandConserves(s, a, d);
    if s.Expand(a, d).1 == Done && ZERO.Within(d) {
      ExpandEffect(s, a, d);
      C.ExpandConserves(s.Expand(a, d).0, a, d.Neg());
    }
  }

  lemma ThereAndBack(size: Amount, pending: Amount)
    requires size.NonNegative() && ValidSpec(pending)
    ensures var d := pending.Minus(size);
            size.Plus(d) == pending && pending.NonNegative() && pending.Floored() == pending && pending.Plus(d.Neg()) == size
  {}

  lemma LiveSizeNonNegative(s: State, a: Id)
    requires C.Conserved(s) && s.Live(a)
    ensures s.allocs[a].size.NonNegative()
  {
    hide C.Load, C.Balanced, C.Indexed;
  }

  lemma RequestResizeKeepsInv(x: World, id: Id, actor: Actor, size: Amount, fault: bool, now: int)
    requires Inv(x.db)
    ensures Inv(RequestResize(x, id, actor, size, fault, now).0.db)
  {
    hide Inv, Ready, CheckBudget, ApproveResize, ResolveSpec, ValidSpec;
    if id in x.db.workspaces {
      var w := x.db.workspaces[id];
      SpecIsSize(x.db, id);
      var target := ResolveSpec("custom", size);
      if target.Some? && !w.resizePending && w.status in {Running, Stopped, FabricDegraded} {
        var (kind, r) := ClassifyResize(w.size, target.value.size);
        if r == Done {
          var asked := w.(pending := target.value.size, resizePending := true, resizeKind := kind, updatedAt := now);
          var y := x.(db := x.db.PutWorkspace(id, asked).AddAudit(Entry(id, None, "workspace.resize.request", None)));
          RequestResizePutKeepsInv(x, id, target.value.size, kind, now);
          if kind == Upgrade {
            ApproveResizeKeepsInv(y, id, actor, fault, now);
          }
        }
      }
    }
  }

  lemma SpecIsSize(s: State, id: Id)
    requires Inv(s) && id in s.workspaces
    ensures s.workspaces[id].Spec().size == s.workspaces[id].size
  {
    hide C.Conserved, OneOwner, R.Origin;
    assert WsOk(s, id, s.workspaces[id]);
  }

  // ----- all operations, and all runs

  lemma DestroyKeepsInv(x: World, op: Op, now: int)
    requires Inv(x.db)
    requires op.OpRequestDestroy? || op.OpApproveDestroyProject? || op.OpApproveDestroyPlatform? || op.OpDestroy?
    ensures Inv(Do(x, op, now).db)
  {
    hide Inv, ExecuteDestroy, RequestDestroy, ApproveDestroyProject;
    RequestDestroyKeepsInv(x, op.id, op.actor, now);
    ApproveProjectKeepsInv(x, op.id, op.actor, now);
    if op.id in x.db.workspaces {
      ExecuteDestroyKeepsInv(x, op.id, now);
    }
  }

  lemma RejectReviewKeepsInv(x: World, op: Op, now: int)
    requires Inv(x.db) && (op.OpRejectDestroyProject? || op.OpRejectDestroyPlatform?)
    ensures Inv(Do(x, op, now).db)
  {
    hide Inv, RestoreAfterReject;
    if op.id in x.db.workspaces && x.db.workspaces[op.id].status.ReviewInFlight() {
      RestoreKeepsInv(x, op.id, "workspace.destroy.reject_project", now);
      RestoreKeepsInv(x, op.id, "workspace.destroy.reject_platform", now);
    }
  }

  lemma DoKeepsInv(x: World, op: Op, now: int)
    requires Inv(x.db) && Legal(x, op)
    ensures Inv(Do(x, op, now).db)
  {
    hide Inv, CreateWorkspace, ApproveWorkspace, RejectWorkspace, FinishProvision, RequestResize, ApproveResize, RejectResize,
      Stop, Start, Wake, SuspendIdle, CheckHealth, FailStuck;
    match op
    case OpCreate(draft, actor, draw) => CreateKeepsInv(x.db, draft, actor, draw, now);
    case OpApprove(id, actor, draw) => ApproveKeepsInv(x.db, id, actor, draw, now);
    case OpReject(id, actor) => RejectKeepsInv(x.db, id, actor, now);
    case OpFinishProvision(id, alloc, launched, approved) => FinishKeepsInv(x, id, alloc, launched, approved, now);
    case OpRequestResize(id, actor, size, fault) => RequestResizeKeepsInv(x, id, actor, size, fault, now);
    case OpApproveResize(id, actor, fault) => ApproveResizeKeepsInv(x, id, actor, fault, now);
    case OpRejectResize(id, actor) => RejectResizeKeepsInv(x, id, actor, now);
    case OpStop(id, actor) => StopKeepsInv(x, id, actor, now);
    case OpStart(id, actor) => StartKeepsInv(x, id, actor, now);
    case OpWake(id) => StartKeepsInv(x, id, Actor(NIL, false, None), now);
    case OpSuspendIdle(id, defaultHours) => SuspendKeepsInv(x, id, defaultHours, now);
    case OpHealth(id) => HealthKeepsInv(x.db, id, now);
    case OpFailStuck(id) => FailStuckKeepsInv(x, id, now);
    case OpReleaseOrphan(alloc) => ReleaseKeepsInv(x.db, alloc);
    case OpLog(entry) => AuditKeepsInv(x.db, entry);
    case OpUpsertNode(n) => UpsertKeepsInv(x.db, n);
    case OpDeleteNode(node) => DeleteNodeKeepsInv(x.db, node);
    case OpRejectDestroyProject(_, _) => RejectReviewKeepsInv(x, op, now);
    case OpRejectDestroyPlatform(_, _) => RejectReviewKeepsInv(x, op, now);
    case _ => DestroyKeepsInv(x, op, now);
  }

  datatype Call = Call(op: Op, now: int)

  ghost predicate StepAt(run: seq<World>, calls: seq<Call>, i: nat)
    requires |run| == |calls| + 1 && i < |calls|
  {
    Legal(run[i], calls[i].op) && run[i + 1] == Do(run[i], calls[i].op, calls[i].now)
  }

  ghost predicate Run(run: seq<World>, calls: seq<Call>) {
    |run| == |calls| + 1 && forall i :: 0 <= i < |calls| ==> StepAt(run, calls, i)
  }

  /** Through any run of operations: every live allocation that a workspace owns has exactly the workspace's size. */
  lemma {:induction false} InvOverRuns(run: seq<World>, calls: seq<Call>, n: nat)
    requires Run(run, calls) && Inv(run[0].db) && n <= |calls|
    ensures Inv(run[n].db)
  {
    if n > 0 {
      hide Inv, Do, Legal;
      InvOverRuns(run, calls, n - 1);
      assert StepAt(run, calls, n - 1);
      DoKeepsInv(run[n - 1], calls[n - 1].op, calls[n - 1].now);
    }
  }

  lemma SpecEqualsAllocation(run: seq<World>, calls: seq<Call>, n: nat, id: Id)
    requires Run(run, calls) && Inv(run[0].db) && n <= |calls|
    requires id in run[n].db.workspaces && run[n].db.Live(run[n].db.workspaces[id].alloc)
    ensures var s := run[n].db; s.workspaces[id].Spec().size == s.allocs[s.workspaces[id].alloc].size
  {
    InvOverRuns(run, calls, n);
    hide C.Conserved, OneOwner, R.Origin, Run;
    assert WsOk(run[n].db, id, run[n].db.workspaces[id]);
  }
}
