/**
 What the application's operations do to the store and the container runtime, one call at a time.
 World is both together; every operation yields the world it leaves and the outcome it reports.
 Service.dfy has the operations as methods over the mutable store and proves them equal to these.
 */
module App {
  import opened Amounts
  import opened Models
  import opened Placement
  import opened Store
  import C = Conservation
  import Text

  /** guests holds the instances of the runtime and whether they run. */
  datatype World = World(db: State, guests: map<Id, bool>)

  const STUCK_AFTER := 20 * 60
  const HOUR := 3600

  // ----- permissions and budget

  function Ready(db: State, actor: Actor, project: Id, minRank: int): Outcome {
    if actor.Member(minRank) != Done then actor.Member(minRank)
    else if project !in db.projects then Fail(ErrNotFound)
    else if !db.projects[project].hasPurpose then Fail(ErrPurposeRequired)
    else Done
  }

  /** A private workspace is open to its owner, project admins and platform admins. */
  predicate MayTouch(w: Workspace, actor: Actor) {
    w.isPrivate && w.owner != actor.id && !actor.platformAdmin ==> actor.CanApprove()
  }

  /** What a workspace counts for in the budget of its project. */
  function Held(db: State, w: Workspace): Amount {
    if w.status.Unbudgeted() || !db.Live(w.alloc) then ZERO else db.allocs[w.alloc].size
  }

  ghost function HeldMap(db: State, project: Id): map<Id, Amount> {
    map id | id in db.workspaces :: if db.workspaces[id].project == project then Held(db, db.workspaces[id]) else ZERO
  }

  ghost function ProjectUsed(db: State, project: Id): Amount { Sum(HeldMap(db, project)) }

  /** The check with the used amount at hand. A zero budget in a dimension means no limit there. */
  function BudgetOutcome(budget: Amount, used: Amount, extra: Amount): Outcome {
    if budget == ZERO then Done
    else if (budget.cpu > 0 && used.cpu + extra.cpu > budget.cpu)
         || (budget.mem > 0 && used.mem + extra.mem > budget.mem)
         || (budget.disk > 0 && used.disk + extra.disk > budget.disk)
    then Fail(ErrNoCapacity)
    else Done
  }

  ghost function CheckBudget(db: State, project: Id, extra: Amount): Outcome {
    if project !in db.projects then Fail(ErrNotFound)
    else BudgetOutcome(db.projects[project].budget, ProjectUsed(db, project), extra)
  }

  // ----- creating and approving

  datatype Draft = Draft(project: Id, name: string, planName: string, size: Amount, arch: string, isPrivate: bool)

  /** The random draws of a call: new ids, and which of several equally good nodes is taken. */
  datatype Draw = Draw(ws: Id, alloc: Id, place: Id)

  function NormalizeArch(raw: string): string {
    var c := Text.Canon(raw);
    if c in {"", ARCH_ANY} then ARCH_ANY
    else if c in {"amd64", "x86_64", "x64"} then "amd64"
    else if c in {"arm64", "aarch64", "arm"} then "arm64"
    else ""
  }

  function WorkspaceName(d: Draft, plan: Plan): string {
    var name := Text.Trim(d.name);
    if name == "" then "ws-" + plan.name else name
  }

  function NewWorkspace(d: Draft, plan: Plan, arch: string, owner: Id, node: Id, alloc: Id, status: Status, now: int): Workspace {
    Workspace(d.project, WorkspaceName(d, plan), plan.name, arch, d.isPrivate, owner, node, alloc, status,
              plan.size, ZERO, false, NoKind, now, now, 0, 0)
  }

  /** Reserving for a container: nothing when place is not a best node, which a real draw is whenever something fits. */
  ghost function Reserve(db: State, project: Id, size: Amount, arch: string, draw: Draw): (State, Outcome) {
    if Best(db.nodes, Query(arch, size, false), draw.place)
    then (db.Take(draw.place, Allocation(draw.alloc, project, draw.place, size, arch, Reserved)), Done)
    else (db, Fail(ErrNoCapacity))
  }

  function RequestWorkspace(db: State, d: Draft, plan: Plan, arch: string, actor: Actor, draw: Draw, now: int): (State, Outcome) {
    var w := NewWorkspace(d, plan, arch, actor.id, NIL, NIL, Requested, now);
    var (db1, r) := db.CreateWorkspace(draw.ws, w);
    if r != Done then (db, r) else (db1.AddAudit(Entry(draw.ws, None, "workspace.request", None)), Done)
  }

  ghost function ProvisionNew(db: State, d: Draft, plan: Plan, arch: string, actor: Actor, draw: Draw, now: int): (State, Outcome) {
    var (db1, r1) := Reserve(db, d.project, plan.size, arch, draw);
    if r1 != Done then (db, r1)
    else
      var node := db1.nodes[draw.place];
      var w := NewWorkspace(d, plan, node.arch, actor.id, draw.place, draw.alloc, Provisioning, now);
      var (db2, r2) := db1.CreateWorkspace(draw.ws, w);
      if r2 != Done then (db1.Release(draw.alloc).0, r2) else (db2, Done)
  }

  ghost function CreateWorkspace(db: State, d: Draft, actor: Actor, draw: Draw, now: int): (State, Outcome) {
    var plan := ResolveSpec(d.planName, d.size);
    var arch := NormalizeArch(d.arch);
    if Ready(db, actor, d.project, RANK_DEVELOPER) != Done then (db, Ready(db, actor, d.project, RANK_DEVELOPER))
    else if plan.None? || arch == "" then (db, Fail(ErrInvalidInput))
    else if CheckBudget(db, d.project, plan.value.size) != Done then (db, CheckBudget(db, d.project, plan.value.size))
    else if actor.CanApprove() then ProvisionNew(db, d, plan.value, arch, actor, draw, now)
    else RequestWorkspace(db, d, plan.value, arch, actor, draw, now)
  }

  ghost function ApproveWorkspace(db: State, id: Id, actor: Actor, draw: Draw, now: int): (State, Outcome) {
    if id !in db.workspaces then (db, Fail(ErrNotFound))
    else
      var w := db.workspaces[id];
      var size := w.Spec().size;
      if Ready(db, actor, w.project, RANK_ADMIN) != Done then (db, Ready(db, actor, w.project, RANK_ADMIN))
      else if w.status != Requested || size.cpu == 0 then (db, Fail(ErrInvalidInput))
      else if CheckBudget(db, w.project, size) != Done then (db, CheckBudget(db, w.project, size))
      else
        var (db1, r) := Reserve(db, w.project, size, NormalArch(w.arch), draw);
        if r != Done then (db, r)
        else
          (db1.PutWorkspace(id, w.(arch := db1.nodes[draw.place].arch, node := draw.place, alloc := draw.alloc,
                                   status := Provisioning, updatedAt := now)), Done)
  }

  function RejectWorkspace(db: State, id: Id, actor: Actor, now: int): (State, Outcome) {
    if id !in db.workspaces then (db, Fail(ErrNotFound))
    else if actor.Member(RANK_ADMIN) != Done then (db, actor.Member(RANK_ADMIN))
    else if db.workspaces[id].status != Requested then (db, Fail(ErrInvalidInput))
    else
      (db.PutWorkspace(id, db.workspaces[id].(status := Rejected, updatedAt := now))
         .AddAudit(Entry(id, None, "workspace.reject", None)), Done)
  }

  // ----- the provision worker, when nothing comes in between

  function DropAborted(x: World, id: Id, alloc: Id): World {
    World(if alloc != NIL then x.db.Release(alloc).0 else x.db, x.guests - {id})
  }

  function FinishProvision(x: World, id: Id, alloc: Id, launched: bool, approved: bool, now: int): World {
    var x1 := if launched then x.(guests := x.guests[id := true]) else x;
    if id !in x1.db.workspaces || x1.db.workspaces[id].status != Provisioning then DropAborted(x1, id, alloc)
    else
      var latest := x1.db.workspaces[id].(updatedAt := now);
      if !launched then x1.(db := x1.db.PutWorkspace(id, latest.(status := Failed)).Release(alloc).0)
      else
        var (db, r) := x1.db.Activate(alloc);
        if r != Done then DropAborted(x1, id, alloc)
        else x1.(db := db.PutWorkspace(id, latest.(status := Running)).AddAudit(Entry(id, None, if approved then "workspace.approve" else "workspace.create", None)))
  }

  // ----- resizing

  function ClassifyResize(cur: Amount, target: Amount): (ResizeKind, Outcome) {
    if cur == target then (NoKind, Fail(ErrNotExpansion))
    else
      var up := target.cpu > cur.cpu || target.mem > cur.mem || target.disk > cur.disk;
      var down := target.cpu < cur.cpu || target.mem < cur.mem || target.disk < cur.disk;
      if up && down then (NoKind, Fail(ErrInvalidInput)) else if up then (Upgrade, Done) else (Downgrade, Done)
  }

  ghost function RequestResize(x: World, id: Id, actor: Actor, size: Amount, fault: bool, now: int): (World, Outcome) {
    if id !in x.db.workspaces then (x, Fail(ErrNotFound))
    else
      var w := x.db.workspaces[id];
      var cur := w.Spec().size;
      var target := ResolveSpec("custom", size);
      if Ready(x.db, actor, w.project, RANK_DEVELOPER) != Done then (x, Ready(x.db, actor, w.project, RANK_DEVELOPER))
      else if !MayTouch(w, actor) then (x, Fail(ErrForbidden))
      else if w.status !in {Running, Stopped, FabricDegraded} then (x, Fail(ErrInvalidInput))
      else if w.resizePending then (x, Fail(ErrConflict))
      else if target.None? then (x, Fail(ErrInvalidInput))
      else
        var (kind, r) := ClassifyResize(cur, target.value.size);
        var delta := target.value.size.Minus(cur);
        if r != Done then (x, r)
        else if kind == Upgrade && CheckBudget(x.db, w.project, delta) != Done then (x, CheckBudget(x.db, w.project, delta))
        else
          var asked := x.(db := x.db.PutWorkspace(id, w.(pending := target.value.size, resizePending := true,
                                                         resizeKind := kind, updatedAt := now))
                                   .AddAudit(Entry(id, None, "workspace.resize.request", None)));
          if kind == Upgrade && Ready(x.db, actor, w.project, RANK_ADMIN) == Done
          then ApproveResize(asked, id, actor, fault, now)
          else (asked, Done)
  }

  function Resized(w: Workspace, now: int): Workspace {
    w.(size := w.pending, pending := ZERO, resizePending := false, resizeKind := NoKind, updatedAt := now)
  }

  /** The kind an approval goes by. */
  function EffectiveKind(w: Workspace): ResizeKind {
    if w.resizeKind == NoKind then ClassifyResize(w.Spec().size, w.pending).0 else w.resizeKind
  }

  ghost function ApproveResize(x: World, id: Id, actor: Actor, fault: bool, now: int): (World, Outcome) {
    if id !in x.db.workspaces then (x, Fail(ErrNotFound))
    else
      var w := x.db.workspaces[id];
      var kind := EffectiveKind(w);
      var delta := w.pending.Minus(w.Spec().size);
      if Ready(x.db, actor, w.project, RANK_ADMIN) != Done then (x, Ready(x.db, actor, w.project, RANK_ADMIN))
      else if !w.resizePending then (x, Fail(ErrInvalidInput))
      else if kind == Upgrade && CheckBudget(x.db, w.project, delta) != Done then (x, CheckBudget(x.db, w.project, delta))
      else if w.alloc == NIL || (kind == Downgrade && !delta.Within(ZERO)) then (x, Fail(ErrInvalidInput))
      else
        var (db, r) := x.db.Expand(w.alloc, delta);
        if r != Done then (x, r)
        else if fault || id !in x.guests then
          // The rollback after a failed downgrade passes the same, negative, delta once more.
          (x.(db := db.Expand(w.alloc, if kind == Downgrade then delta else delta.Neg()).0), Fail(ErrRuntime))
        else
          (x.(db := db.PutWorkspace(id, Resized(w, now)).AddAudit(Entry(id, None, "workspace.resize.approve", None))), Done)
  }

  function RejectResize(x: World, id: Id, actor: Actor, now: int): (World, Outcome) {
    if id !in x.db.workspaces then (x, Fail(ErrNotFound))
    else if actor.Member(RANK_DEVELOPER) != Done then (x, actor.Member(RANK_DEVELOPER))
    else if !x.db.workspaces[id].resizePending then (x, Fail(ErrInvalidInput))
    else
      (x.(db := x.db.PutWorkspace(id, x.db.workspaces[id].(pending := ZERO, resizePending := false, updatedAt := now))
                    .AddAudit(Entry(id, None, "workspace.resize.reject", None))), Done)
  }

  // ----- destroying

  function ExecuteDestroy(x: World, id: Id, now: int): World
    requires id in x.db.workspaces
  {
    var w := x.db.workspaces[id];
    var marked := x.db.PutWorkspace(id, w.(status := Destroying, updatedAt := now));
    var released := if w.alloc != NIL then marked.Release(w.alloc).0 else marked;
    World(released.PutWorkspace(id, w.(status := Destroyed, updatedAt := now))
            .AddAudit(Entry(id, None, "workspace.destroy", None)),
          x.guests - {id})
  }

  /** The instance of a stopped or suspended workspace is started for the time of the review. */
  function WakeForReview(x: World, id: Id): (World, Outcome)
    requires id in x.db.workspaces
  {
    if x.db.workspaces[id].status !in {Stopped, Suspended} then (x, Done)
    else if id !in x.guests then (x, Fail(ErrRuntime))
    else (x.(guests := x.guests[id := true]), Done)
  }

  function RequestDestroy(x: World, id: Id, actor: Actor, now: int): (World, Outcome) {
    if id !in x.db.workspaces then (x, Fail(ErrNotFound))
    else
      var w := x.db.workspaces[id];
      if actor.Member(RANK_DEVELOPER) != Done then (x, actor.Member(RANK_DEVELOPER))
      else if !MayTouch(w, actor) then (x, Fail(ErrForbidden))
      else if w.status.ReviewInFlight() || w.status.Gone() then (x, Fail(ErrConflict))
      else if actor.platformAdmin then (ExecuteDestroy(x, id, now), Done)
      else
        var (y, r) := WakeForReview(x, id);
        if r != Done then (x, r)
        else
          var asked := Entry(id, None, DESTROY_REQUEST, Some(w.status));
          if actor.CanApprove() then
            (y.(db := y.db.PutWorkspace(id, w.(status := DestroyPendingPlatform, updatedAt := now))
                          .AddAudit(asked).AddAudit(Entry(id, None, "workspace.destroy.approve_project", None))), Done)
          else
            (y.(db := y.db.PutWorkspace(id, w.(status := DestroyRequested, updatedAt := now)).AddAudit(asked)), Done)
  }

  function ApproveDestroyProject(x: World, id: Id, actor: Actor, now: int): (World, Outcome) {
    if id !in x.db.workspaces then (x, Fail(ErrNotFound))
    else if actor.Member(RANK_ADMIN) != Done then (x, actor.Member(RANK_ADMIN))
    else if x.db.workspaces[id].status == DestroyPendingPlatform then (x, Done)
    else if x.db.workspaces[id].status != DestroyRequested then (x, Fail(ErrInvalidInput))
    else
      (x.(db := x.db.PutWorkspace(id, x.db.workspaces[id].(status := DestroyPendingPlatform, updatedAt := now))
                    .AddAudit(Entry(id, None, "workspace.destroy.approve_project", None))), Done)
  }

  function ApproveDestroyPlatform(x: World, id: Id, actor: Actor, now: int): (World, Outcome) {
    if !actor.platformAdmin then (x, Fail(ErrForbidden))
    else if id !in x.db.workspaces then (x, Fail(ErrNotFound))
    else if x.db.workspaces[id].status != DestroyPendingPlatform then (x, Fail(ErrInvalidInput))
    else (ExecuteDestroy(x, id, now), Done)
  }

  const REVIEW_HISTORY := 80

  /** The newest destroy request in a list that is newest first. */
  function OriginIn(logs: seq<Entry>): Option<Status> {
    if logs == [] then None
    else if logs[0].action == DESTROY_REQUEST then logs[0].fromStatus
    else OriginIn(logs[1..])
  }

  function RestoredStatus(db: State, id: Id): Status {
    RestoreStatus(OriginIn(NewestAbout(db.audit, |db.audit|, id, REVIEW_HISTORY)))
  }

  function RestoreAfterReject(x: World, id: Id, action: string, now: int): World
    requires id in x.db.workspaces
  {
    x.(db := x.db.PutWorkspace(id, x.db.workspaces[id].(status := RestoredStatus(x.db, id), updatedAt := now))
                 .AddAudit(Entry(id, None, action, None)))
  }

  function RejectDestroyProject(x: World, id: Id, actor: Actor, now: int): (World, Outcome) {
    if id !in x.db.workspaces then (x, Fail(ErrNotFound))
    else if actor.Member(RANK_ADMIN) != Done then (x, actor.Member(RANK_ADMIN))
    else if x.db.workspaces[id].status != DestroyRequested then (x, Fail(ErrInvalidInput))
    else (RestoreAfterReject(x, id, "workspace.destroy.reject_project", now), Done)
  }

  function RejectDestroyPlatform(x: World, id: Id, actor: Actor, now: int): (World, Outcome) {
    if !actor.platformAdmin then (x, Fail(ErrForbidden))
    else if id !in x.db.workspaces then (x, Fail(ErrNotFound))
    else if x.db.workspaces[id].status != DestroyPendingPlatform then (x, Fail(ErrInvalidInput))
    else (RestoreAfterReject(x, id, "workspace.destroy.reject_platform", now), Done)
  }

  function DestroyWorkspace(x: World, id: Id, actor: Actor, now: int): (World, Outcome) {
    if !actor.platformAdmin then RequestDestroy(x, id, actor, now)
    else if id !in x.db.workspaces then (x, Fail(ErrNotFound))
    else (ExecuteDestroy(x, id, now), Done)
  }

  // ----- stop, start, idle and health

  function Stop(x: World, id: Id, actor: Actor, now: int): (World, Outcome) {
    if id !in x.db.workspaces then (x, Fail(ErrNotFound))
    else
      var w := x.db.workspaces[id];
      if Ready(x.db, actor, w.project, RANK_DEVELOPER) != Done then (x, Ready(x.db, actor, w.project, RANK_DEVELOPER))
      else if w.status.ReviewInFlight() then (x, Fail(ErrConflict))
      else if w.status.Closed() || w.status == Requested then (x, Fail(ErrInvalidInput))
      else if id !in x.guests then (x, Fail(ErrRuntime))
      else
        (World(x.db.PutWorkspace(id, w.(status := Stopped, updatedAt := now)).AddAudit(Entry(id, None, "workspace.stop", None)),
               x.guests[id := false]), Done)
  }

  function Start(x: World, id: Id, actor: Actor, now: int): (World, Outcome) {
    if id !in x.db.workspaces then (x, Fail(ErrNotFound))
    else
      var w := x.db.workspaces[id];
      if Ready(x.db, actor, w.project, RANK_DEVELOPER) != Done then (x, Ready(x.db, actor, w.project, RANK_DEVELOPER))
      else if w.status.Closed() || w.status == Requested then (x, Fail(ErrInvalidInput))
      else if id !in x.guests then (x, Fail(ErrRuntime))
      else
        (World(x.db.PutWorkspace(id, w.(status := Running, lastActivityAt := now, updatedAt := now))
                 .AddAudit(Entry(id, None, "workspace.start", None)),
               x.guests[id := true]), Done)
  }

  /** An SSH session wakes a suspended or stopped workspace. */
  function Wake(x: World, id: Id, now: int): (World, Outcome) {
    if id !in x.db.workspaces then (x, Fail(ErrNotFound))
    else if x.db.workspaces[id].status !in {Suspended, Stopped} then (x, Done)
    else if id !in x.guests then (x, Fail(ErrRuntime))
    else
      (World(x.db.PutWorkspace(id, x.db.workspaces[id].(status := Running, lastActivityAt := now, updatedAt := now)),
             x.guests[id := true]), Done)
  }

  function LastActivity(w: Workspace): int {
    if w.lastActivityAt != 0 then w.lastActivityAt else if w.updatedAt != 0 then w.updatedAt else w.createdAt
  }

  function IdleHours(w: Workspace, defaultHours: int): int { if w.idleHours > 0 then w.idleHours else defaultHours }

  predicate ShouldSuspend(x: World, id: Id, defaultHours: int, now: int)
    requires id in x.db.workspaces
  {
    var w := x.db.workspaces[id];
    var hours := IdleHours(w, defaultHours);
    w.status in {Running, FabricDegraded} && hours > 0 && now - LastActivity(w) >= hours * HOUR && id in x.guests
  }

  function SuspendIdle(x: World, id: Id, defaultHours: int, now: int): World {
    if id in x.db.workspaces && ShouldSuspend(x, id, defaultHours, now) then
      World(x.db.PutWorkspace(id, x.db.workspaces[id].(status := Suspended, updatedAt := now))
              .AddAudit(Entry(id, None, "workspace.idle_suspend", None)),
            x.guests[id := false])
    else x
  }

  function HealthStatus(db: State, w: Workspace): Status {
    if !w.status.HealthActive() || w.node == NIL then w.status
    else if w.node !in db.nodes then NodeLost
    else
      match db.nodes[w.node].health
      case Offline => NodeLost
      case Degraded => if w.status == Running then FabricDegraded else w.status
      case Healthy => if w.status == NodeLost then Running else w.status
  }

  function CheckHealth(db: State, id: Id, now: int): State {
    if id !in db.workspaces || HealthStatus(db, db.workspaces[id]) == db.workspaces[id].status then db
    else db.PutWorkspace(id, db.workspaces[id].(status := HealthStatus(db, db.workspaces[id]), updatedAt := now))
  }

  // ----- reconciling

  predicate Stuck(w: Workspace, now: int) { w.status == Provisioning && now - w.updatedAt >= STUCK_AFTER }

  function FailStuck(x: World, id: Id, now: int): World {
    if id in x.db.workspaces && Stuck(x.db.workspaces[id], now) then
      var w := x.db.workspaces[id];
      World((if w.alloc != NIL then x.db.Release(w.alloc).0 else x.db).PutWorkspace(id, w.(status := Failed, updatedAt := now)),
            x.guests - {id})
    else x
  }

  ghost predicate Owns(db: State, id: Id, alloc: Id) { id in db.workspaces && db.workspaces[id].alloc == alloc }

  /** No workspace that may still need it refers to the allocation. */
  ghost predicate Orphan(db: State, alloc: Id) {
    forall id :: Owns(db, id, alloc) ==> db.workspaces[id].status in {Destroyed, Failed}
  }

  ghost function ReleaseOrphan(db: State, alloc: Id): State {
    if Orphan(db, alloc) then db.Release(alloc).0 else db
  }

  // ----- all operations as one

  datatype Op =
    | OpCreate(draft: Draft, actor: Actor, draw: Draw)
    | OpApprove(id: Id, actor: Actor, draw: Draw)
    | OpReject(id: Id, actor: Actor)
    | OpFinishProvision(id: Id, alloc: Id, launched: bool, approved: bool)
    | OpRequestResize(id: Id, actor: Actor, size: Amount, fault: bool)
    | OpApproveResize(id: Id, actor: Actor, fault: bool)
    | OpRejectResize(id: Id, actor: Actor)
    | OpRequestDestroy(id: Id, actor: Actor)
    | OpApproveDestroyProject(id: Id, actor: Actor)
    | OpApproveDestroyPlatform(id: Id, actor: Actor)
    | OpRejectDestroyProject(id: Id, actor: Actor)
    | OpRejectDestroyPlatform(id: Id, actor: Actor)
    | OpDestroy(id: Id, actor: Actor)
    | OpStop(id: Id, actor: Actor)
    | OpStart(id: Id, actor: Actor)
    | OpWake(id: Id)
    | OpSuspendIdle(id: Id, defaultHours: int)
    | OpHealth(id: Id)
    | OpFailStuck(id: Id)
    | OpReleaseOrphan(alloc: Id)
    | OpLog(entry: Entry)
    | OpUpsertNode(n: Node)
    | OpDeleteNode(node: Id)

  ghost function Do(x: World, op: Op, now: int): World {
    match op
    case OpCreate(draft, actor, draw) => x.(db := CreateWorkspace(x.db, draft, actor, draw, now).0)
    case OpApprove(id, actor, draw) => x.(db := ApproveWorkspace(x.db, id, actor, draw, now).0)
    case OpReject(id, actor) => x.(db := RejectWorkspace(x.db, id, actor, now).0)
    case OpFinishProvision(id, alloc, launched, approved) => FinishProvision(x, id, alloc, launched, approved, now)
    case OpRequestResize(id, actor, size, fault) => RequestResize(x, id, actor, size, fault, now).0
    case OpApproveResize(id, actor, fault) => ApproveResize(x, id, actor, fault, now).0
    case OpRejectResize(id, actor) => RejectResize(x, id, actor, now).0
    case OpRequestDestroy(id, actor) => RequestDestroy(x, id, actor, now).0
    case OpApproveDestroyProject(id, actor) => ApproveDestroyProject(x, id, actor, now).0
    case OpApproveDestroyPlatform(id, actor) => ApproveDestroyPlatform(x, id, actor, now).0
    case OpRejectDestroyProject(id, actor) => RejectDestroyProject(x, id, actor, now).0
    case OpRejectDestroyPlatform(id, actor) => RejectDestroyPlatform(x, id, actor, now).0
    case OpDestroy(id, actor) => DestroyWorkspace(x, id, actor, now).0
    case OpStop(id, actor) => Stop(x, id, actor, now).0
    case OpStart(id, actor) => Start(x, id, actor, now).0
    case OpWake(id) => Wake(x, id, now).0
    case OpSuspendIdle(id, defaultHours) => SuspendIdle(x, id, defaultHours, now)
    case OpHealth(id) => x.(db := CheckHealth(x.db, id, now))
    case OpFailStuck(id) => FailStuck(x, id, now)
    case OpReleaseOrphan(alloc) => x.(db := ReleaseOrphan(x.db, alloc))
    case OpLog(entry) => x.(db := x.db.AddAudit(entry))
    case OpUpsertNode(n) => x.(db := x.db.Upsert(n))
    case OpDeleteNode(node) => x.(db := x.db.DeleteNode(node).0)
  }
}
