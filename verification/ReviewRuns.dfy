/** Destroy reviews over whole runs: who may change a status under review, and what a rejection restores. */
module ReviewRuns {
  import opened Amounts
  import opened Models
  import opened Placement
  import opened Store
  import opened App
  import opened AppInv
  import opened AppSteps
  import opened Moves
  import opened Review
  import C = Conservation

  /** The three ways out of a review, all of them by an approver. */
  predicate Decides(op: Op, id: Id) {
    match op
    case OpApproveDestroyProject(i, actor) => i == id && actor.CanApprove()
    case OpRejectDestroyProject(i, actor) => i == id && actor.CanApprove()
    case OpRejectDestroyPlatform(i, actor) => i == id && actor.platformAdmin
    case OpApproveDestroyPlatform(i, actor) => i == id && actor.platformAdmin
    case OpDestroy(i, actor) => i == id && actor.platformAdmin
    case _ => false
  }

  /**
   While a review is in flight only a decision changes the status. Stop, start, wake, idle suspend, health, resizing,
   failing stuck workspaces and late provision results leave it alone.
   */
  lemma ReviewIsStable(x: World, op: Op, now: int, id: Id)
    requires Legal(x, op) && id in x.db.workspaces && x.db.workspaces[id].status in {DestroyRequested, DestroyPendingPlatform}
    requires !Decides(op, id)
    ensures var y := Do(x, op, now); id in y.db.workspaces && y.db.workspaces[id].status == x.db.workspaces[id].status
  {
    hide Do, Legal, RestoredStatus;
    EveryMoveIsAllowed(x, op, now, id);
  }

  // ----- what the operations log

  /** No destroy request was added to the log. */
  ghost predicate Quiet(a: seq<Entry>, b: seq<Entry>) {
    forall id :: Origin(b, id) == Origin(a, id) && (HasRequest(a, id) ==> HasRequest(b, id))
  }

  lemma QuietAppend(a: seq<Entry>, e: Entry)
    requires e.action != DESTROY_REQUEST
    ensures Quiet(a, a + [e])
  {
    forall id ensures Origin(a + [e], id) == Origin(a, id) && (HasRequest(a, id) ==> HasRequest(a + [e], id)) {
      OriginOfAppended(a, e, id);
    }
  }

  lemma QuietReflexive(a: seq<Entry>)
    ensures Quiet(a, a)
  {}

  /** Everything but the two operations that ask for destruction logs no destroy request. */
  predicate MayAsk(op: Op) { op.OpRequestDestroy? || op.OpDestroy? }

  lemma QuietCreate(s: State, d: Draft, actor: Actor, draw: Draw, now: int)
    ensures Quiet(s.audit, CreateWorkspace(s, d, actor, draw, now).0.audit)
  {
    hide CheckBudget, Ready, NormalizeArch, ResolveSpec, Quiet;
    QuietReflexive(s.audit);
    QuietAppend(s.audit, Entry(draw.ws, None, "workspace.request", None));
    var plan := ResolveSpec(d.planName, d.size);
    if plan.Some? && draw.place in s.nodes {
      var a := Allocation(draw.alloc, d.project, draw.place, plan.value.size, NormalizeArch(d.arch), Reserved);
      TakeEffect(s, draw.place, a);
      ReleaseEffect(s.Take(draw.place, a), draw.alloc);
      hide State.Take, State.Release;
    }
  }

  lemma QuietFinish(x: World, id: Id, alloc: Id, launched: bool, approved: bool, now: int)
    ensures Quiet(x.db.audit, FinishProvision(x, id, alloc, launched, approved, now).db.audit)
  {
    hide Quiet;
    QuietReflexive(x.db.audit);
    QuietAppend(x.db.audit, Entry(id, None, if approved then "workspace.approve" else "workspace.create", None));
    ReleaseEffect(x.db, alloc);
    ActivateEffect(x.db, alloc);
    if id in x.db.workspaces {
      ReleaseEffect(x.db.PutWorkspace(id, x.db.workspaces[id].(updatedAt := now, status := Failed)), alloc);
    }
    hide State.Release, State.Activate;
  }

  lemma QuietTransitive(a: seq<Entry>, b: seq<Entry>, c: seq<Entry>)
    requires Quiet(a, b) && Quiet(b, c)
    ensures Quiet(a, c)
  {}

  lemma QuietResize(x: World, id: Id, actor: Actor, fault: bool, now: int)
    ensures Quiet(x.db.audit, ApproveResize(x, id, actor, fault, now).0.db.audit)
  {
    hide CheckBudget, Ready, State.Expand, EffectiveKind, Workspace.Spec, Quiet;
    QuietReflexive(x.db.audit);
    QuietAppend(x.db.audit, Entry(id, None, "workspace.resize.approve", None));
    if id in x.db.workspaces {
      var w := x.db.workspaces[id];
      var d := w.pending.Minus(w.Spec().size);
      ExpandLeavesWorkspaces(x.db, w.alloc, d);
      var t := x.db.Expand(w.alloc, d).0;
      ExpandLeavesWorkspaces(t, w.alloc, d);
      ExpandLeavesWorkspaces(t, w.alloc, d.Neg());
    }
  }

  lemma QuietRequestResize(x: World, id: Id, actor: Actor, size: Amount, fault: bool, now: int)
    ensures Quiet(x.db.audit, RequestResize(x, id, actor, size, fault, now).0.db.audit)
  {
    hide CheckBudget, Ready, ApproveResize, ResolveSpec, ClassifyResize, Workspace.Spec, Quiet;
    QuietReflexive(x.db.audit);
    var asked := Entry(id, None, "workspace.resize.request", None);
    QuietAppend(x.db.audit, asked);
    if id in x.db.workspaces {
      var w := x.db.workspaces[id];
      var target := ResolveSpec("custom", size);
      if target.Some? {
        var kind := ClassifyResize(w.Spec().size, target.value.size).0;
        var y := x.(db := x.db.PutWorkspace(id, w.(pending := target.value.size, resizePending := true, resizeKind := kind, updatedAt := now))
                              .AddAudit(asked));
        QuietResize(y, id, actor, fault, now);
        QuietTransitive(x.db.audit, y.db.audit, ApproveResize(y, id, actor, fault, now).0.db.audit);
      }
    }
  }

  lemma QuietExecuteDestroy(x: World, id: Id, now: int)
    requires id in x.db.workspaces
    ensures Quiet(x.db.audit, ExecuteDestroy(x, id, now).db.audit)
  {
    hide State.Release, Quiet;
    var w := x.db.workspaces[id];
    ReleaseEffect(x.db.PutWorkspace(id, w.(status := Destroying, updatedAt := now)), w.alloc);
    QuietAppend(x.db.audit, Entry(id, None, "workspace.destroy", None));
  }

  lemma QuietDestroy(x: World, op: Op, now: int)
    requires op.OpApproveDestroyPlatform? || op.OpApproveDestroyProject? || op.OpRejectDestroyProject? || op.OpRejectDestroyPlatform?
    ensures Quiet(x.db.audit, Do(x, op, now).db.audit)
  {
    hide ExecuteDestroy, RestoredStatus, Quiet;
    QuietReflexive(x.db.audit);
    QuietAppend(x.db.audit, Entry(op.id, None, "workspace.destroy.approve_project", None));
    QuietAppend(x.db.audit, Entry(op.id, None, "workspace.destroy.reject_project", None));
    QuietAppend(x.db.audit, Entry(op.id, None, "workspace.destroy.reject_platform", None));
    if op.id in x.db.workspaces {
      QuietExecuteDestroy(x, op.id, now);
    }
  }

  lemma QuietPower(x: World, op: Op, now: int)
    requires op.OpStop? || op.OpStart? || op.OpWake? || op.OpSuspendIdle? || op.OpReject? || op.OpRejectResize?
    ensures Quiet(x.db.audit, Do(x, op, now).db.audit)
  {
    hide Ready, Quiet, ShouldSuspend;
    QuietReflexive(x.db.audit);
    QuietAppend(x.db.audit, Entry(op.id, None, "workspace.stop", None));
    QuietAppend(x.db.audit, Entry(op.id, None, "workspace.start", None));
    QuietAppend(x.db.audit, Entry(op.id, None, "workspace.idle_suspend", None));
    QuietAppend(x.db.audit, Entry(op.id, None, "workspace.reject", None));
    QuietAppend(x.db.audit, Entry(op.id, None, "workspace.resize.reject", None));
  }

  lemma QuietApprove(s: State, id: Id, actor: Actor, draw: Draw, now: int)
    ensures ApproveWorkspace(s, id, actor, draw, now).0.audit == s.audit
  {
    hide CheckBudget, Ready;
  }

  lemma QuietUnlessAsking(x: World, op: Op, now: int)
    requires Legal(x, op) && !MayAsk(op)
    ensures Quiet(x.db.audit, Do(x, op, now).db.audit)
  {
    hide Quiet, ExecuteDestroy, RestoreAfterReject, ApproveDestroyProject, CreateWorkspace, ApproveWorkspace, RejectWorkspace,
      FinishProvision, RequestResize, ApproveResize, RejectResize, Stop, Start, Wake, SuspendIdle, State.Release, State.DeleteNode, State.Upsert;
    QuietReflexive(x.db.audit);
    match op
    case OpCreate(draft, actor, draw) => QuietCreate(x.db, draft, actor, draw, now);
    case OpApprove(id, actor, draw) => QuietApprove(x.db, id, actor, draw, now);
    case OpFinishProvision(id, alloc, launched, approved) => QuietFinish(x, id, alloc, launched, approved, now);
    case OpRequestResize(id, actor, size, fault) => QuietRequestResize(x, id, actor, size, fault, now);
    case OpApproveResize(id, actor, fault) => QuietResize(x, id, actor, fault, now);
    case OpApproveDestroyPlatform(_, _) => QuietDestroy(x, op, now);
    case OpApproveDestroyProject(_, _) => QuietDestroy(x, op, now);
    case OpRejectDestroyProject(_, _) => QuietDestroy(x, op, now);
    case OpRejectDestroyPlatform(_, _) => QuietDestroy(x, op, now);
    case OpHealth(_) =>
    case OpFailStuck(id) => if id in x.db.workspaces { ReleaseEffect(x.db, x.db.workspaces[id].alloc); }
    case OpReleaseOrphan(alloc) => ReleaseEffect(x.db, alloc);
    case OpLog(entry) => QuietAppend(x.db.audit, entry);
    case OpUpsertNode(n) => UpsertEffect(x.db, n);
    case OpDeleteNode(node) => DeleteNodeEffect(x.db, node);
    case _ => QuietPower(x, op, now);
  }

  /** An asking operation that puts a workspace under review logs the status it came from, as the newest request. */
  lemma AskingLogsOrigin(x: World, id: Id, actor: Actor, now: int, other: Id)
    ensures var t := RequestDestroy(x, id, actor, now).0.db;
            if id == other && id in x.db.workspaces && !x.db.workspaces[id].status.ReviewInFlight()
               && id in t.workspaces && t.workspaces[id].status.ReviewInFlight()
            then HasRequest(t.audit, id) && Origin(t.audit, id) == Some(x.db.workspaces[id].status)
            else if other != id || (id in x.db.workspaces && x.db.workspaces[id].status.ReviewInFlight())
            then Origin(t.audit, other) == Origin(x.db.audit, other) && (HasRequest(x.db.audit, other) ==> HasRequest(t.audit, other))
            else true
  {
    hide ExecuteDestroy, Origin, HasRequest;
    if id in x.db.workspaces {
      var w := x.db.workspaces[id];
      var asked := Entry(id, None, DESTROY_REQUEST, Some(w.status));
      ExecuteDestroyTouches(x, id, now);
      QuietExecuteDestroy(x, id, now);
      OriginOfAppended(x.db.audit, asked, other);
      OriginOfAppended(x.db.audit + [asked], Entry(id, None, "workspace.destroy.approve_project", None), other);
    }
  }

  predicate UnderReview(x: World, id: Id) {
    id in x.db.workspaces && x.db.workspaces[id].status in {DestroyRequested, DestroyPendingPlatform}
  }

  /** The newest request about id says that the review started from st. */
  ghost predicate Remembers(s: State, id: Id, st: Status) { HasRequest(s.audit, id) && Origin(s.audit, id) == Some(st) }

  lemma OnlyAskingEnters(x: World, op: Op, now: int, id: Id)
    requires Legal(x, op) && id in x.db.workspaces && !UnderReview(x, id) && UnderReview(Do(x, op, now), id)
    ensures MayAsk(op) && op.id == id && !op.actor.platformAdmin
  {
    hide Do, Legal, RestoredStatus;
    EveryMoveIsAllowed(x, op, now, id);
  }

  lemma EnteringRemembers(x: World, op: Op, now: int, id: Id)
    requires Legal(x, op) && id in x.db.workspaces && !UnderReview(x, id) && UnderReview(Do(x, op, now), id)
    ensures Remembers(Do(x, op, now).db, id, x.db.workspaces[id].status)
  {
    OnlyAskingEnters(x, op, now, id);
    AskingLogsOrigin(x, op.id, op.actor, now, id);
    hide RequestDestroy, Origin, HasRequest;
  }

  lemma StayingRemembers(x: World, op: Op, now: int, id: Id, st: Status)
    requires Legal(x, op) && UnderReview(x, id) && Remembers(x.db, id, st)
    ensures Remembers(Do(x, op, now).db, id, st)
  {
    hide RequestDestroy, ExecuteDestroy, Origin, HasRequest;
    if MayAsk(op) {
      AskingLogsOrigin(x, op.id, op.actor, now, id);
      if op.id in x.db.workspaces {
        QuietExecuteDestroy(x, op.id, now);
      }
    } else {
      QuietUnlessAsking(x, op, now);
      hide Do;
    }
  }

  /** A review that started at step k and is still in flight at step n remembers the status it started from. */
  lemma {:induction false} ReviewRemembersOrigin(run: seq<World>, calls: seq<Call>, k: nat, n: nat, id: Id)
    requires Run(run, calls) && k < n <= |calls|
    requires id in run[k].db.workspaces && !UnderReview(run[k], id)
    requires forall i :: k < i <= n ==> UnderReview(run[i], id)
    ensures Remembers(run[n].db, id, run[k].db.workspaces[id].status)
  {
    hide Do, Legal, Remembers;
    assert StepAt(run, calls, n - 1);
    if n == k + 1 {
      EnteringRemembers(run[k], calls[k].op, calls[k].now, id);
    } else {
      ReviewRemembersOrigin(run, calls, k, n - 1, id);
      StayingRemembers(run[n - 1], calls[n - 1].op, calls[n - 1].now, id, run[k].db.workspaces[id].status);
    }
  }

  /** Who may reject which review. */
  predicate MayReject(x: World, op: Op, id: Id) {
    && id in x.db.workspaces
    && match op
       case OpRejectDestroyProject(i, actor) =>
         i == id && x.db.workspaces[id].status == DestroyRequested
         && (actor.platformAdmin || (actor.rank.Some? && actor.rank.value >= 30))
       case OpRejectDestroyPlatform(i, actor) => i == id && x.db.workspaces[id].status == DestroyPendingPlatform && actor.platformAdmin
       case _ => false
  }

  /** A rejection that may be made writes the status and logs; any other changes nothing. */
  lemma RejectionWrites(x: World, op: Op, now: int)
    requires op.OpRejectDestroyProject? || op.OpRejectDestroyPlatform?
    ensures var y := Do(x, op, now);
            if MayReject(x, op, op.id) then
              && y.guests == x.guests
              && y.db == x.db.(audit := y.db.audit,
                               workspaces := x.db.workspaces[op.id := x.db.workspaces[op.id].(status := RestoredStatus(x.db, op.id), updatedAt := now)])
            else y == x
  {
    hide RestoredStatus;
  }

  /**
   What becomes of a workspace whose review is rejected, by the status it was in when the review began: an operational
   status, or failed, comes back if fewer than 80 newer entries about the workspace have been logged since the request,
   and everything else becomes running.
   */
  lemma RejectRestoresExactly(run: seq<World>, calls: seq<Call>, k: nat, n: nat, op: Op, now: int, id: Id)
    requires Run(run, calls) && k < n <= |calls|
    requires id in run[k].db.workspaces && !UnderReview(run[k], id)
    requires forall i :: k < i <= n ==> UnderReview(run[i], id)
    requires MayReject(run[n], op, id)
    ensures var before, y := run[k].db.workspaces[id].status, Do(run[n], op, now);
            && id in y.db.workspaces
            && y.db.workspaces[id].status ==
               (if before in {Stopped, FabricDegraded, Suspended, NodeLost, Failed} && Newer(run[n].db.audit, id) < 80 then before else Running)
            && (y.db.workspaces[id].status == before
                <==> before == Running
                     || (before in {Stopped, FabricDegraded, Suspended, NodeLost, Failed} && Newer(run[n].db.audit, id) < 80))
  {
    ReviewRemembersOrigin(run, calls, k, n, id);
    RestoredFromLog(run[n].db, id);
    RejectionWrites(run[n], op, now);
    hide RestoredStatus, Run, Do, Origin, HasRequest, Newer;
  }

  /** A review asked for from requested, provisioning or rejected ends, when rejected, in running. */
  lemma UnrestorableComesBackRunning(run: seq<World>, calls: seq<Call>, k: nat, n: nat, id: Id)
    requires Run(run, calls) && k < n <= |calls|
    requires id in run[k].db.workspaces && run[k].db.workspaces[id].status in {Requested, Provisioning, Rejected}
    requires forall i :: k < i <= n ==> UnderReview(run[i], id)
    ensures RestoredStatus(run[n].db, id) == Running
  {
    ReviewRemembersOrigin(run, calls, k, n, id);
    RestoredFromLog(run[n].db, id);
    hide RestoredStatus, Run, Origin, HasRequest, Newer;
  }
}
