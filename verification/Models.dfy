/** Entities of the control plane: nodes, allocations, workspaces, actors and audit entries. */
module Models {
  import opened Amounts

  /** Identifiers stand for the random UUIDs of the program; NIL is the all-zero one. */
  type Id = nat

  const NIL: Id := 0

  const ARCH_ANY := "any"
  const ROLE_CONTROL_PLANE := "control-plane"

  datatype Error =
    | ErrNotFound | ErrConflict | ErrNoCapacity | ErrForbidden | ErrInvalidInput
    | ErrAlreadyReleased | ErrNotExpansion | ErrPurposeRequired | ErrRuntime

  datatype Outcome = Done | Fail(error: Error)

  datatype Health = Healthy | Degraded | Offline

  datatype Node = Node(
    id: Id, name: string, arch: string, role: string, power: string, fabricPath: string,
    ready: bool, health: Health, allocatable: Amount, used: Amount,
    lastHeartbeat: int, machineType: string, remark: string, tags: seq<string>) {
    function Free(): Amount { allocatable.Minus(used) }
  }

  datatype AllocState = Reserved | Active | Released

  datatype Allocation = Allocation(id: Id, project: Id, node: Id, size: Amount, arch: string, state: AllocState) {
    predicate Live() { state != Released }
  }

  datatype Status =
    | Requested | Provisioning | Running | Stopped | Failed | Rejected
    | DestroyRequested | DestroyPendingPlatform | Destroying | Destroyed
    | NodeLost | FabricDegraded | Suspended
  {
    predicate ReviewInFlight() { this in {DestroyRequested, DestroyPendingPlatform} }

    predicate Gone() { this in {Destroying, Destroyed} }

    /** Start and stop must not rewrite these. */
    predicate Closed() { Gone() || ReviewInFlight() || this == Rejected }

    /** Statuses that the health loop may rewrite. */
    predicate HealthActive() { this in {Running, Stopped, Suspended, FabricDegraded, NodeLost} }

    /** Statuses that hold no capacity and are skipped by the budget. */
    predicate Unbudgeted() { this in {Destroyed, Failed, Requested, Rejected} }

    predicate Restorable() { HealthActive() || this == Failed }
  }

  /** The status restored when a destroy review is rejected; None stands for an unknown origin. */
  function RestoreStatus(origin: Option<Status>): Status {
    if origin.Some? && origin.value.Restorable() then origin.value else Running
  }

  datatype Option<+T> = None | Some(value: T)

  datatype ResizeKind = NoKind | Upgrade | Downgrade

  datatype Plan = Plan(name: string, size: Amount)

  const MI := 1024 * 1024
  const GI := 1024 * MI
  const PLANS: map<string, Amount> := map[
    "nano" := Amount(500, 256 * MI, 5 * GI),
    "small" := Amount(1000, 512 * MI, 5 * GI),
    "2c2g" := Amount(2000, 2 * GI, 5 * GI),
    "medium" := Amount(2000, 1 * GI, 15 * GI),
    "large" := Amount(4000, 2 * GI, 20 * GI),
    "xlarge" := Amount(6000, 3 * GI, 30 * GI)
  ]
  const MIN_SPEC := Amount(100, 64 * MI, GI)
  const MAX_SPEC := Amount(32000, 64 * GI, 500 * GI)

  predicate ValidSpec(a: Amount) { MIN_SPEC.Within(a) && a.Within(MAX_SPEC) }

  /** None when the request is refused. A resolved plan is always inside the limits. */
  function ResolveSpec(planName: string, a: Amount): (r: Option<Plan>)
    ensures r.Some? ==> ValidSpec(r.value.size)
    ensures r.Some? && a != ZERO && !a.Within(ZERO) ==> r.value.size == a
  {
    if a.cpu > 0 || a.mem > 0 || a.disk > 0 then
      if !ValidSpec(a) then None
      else if planName in PLANS && PLANS[planName] == a then Some(Plan(planName, a))
      else Some(Plan("custom", a))
    else if planName in PLANS then Some(Plan(planName, PLANS[planName]))
    else None
  }

  datatype Workspace = Workspace(
    project: Id, name: string, plan: string, arch: string, isPrivate: bool, owner: Id,
    node: Id, alloc: Id, status: Status,
    size: Amount, pending: Amount, resizePending: bool, resizeKind: ResizeKind,
    createdAt: int, updatedAt: int, lastActivityAt: int, idleHours: int)
  {
    /** The size the rest of the program works with. */
    function Spec(): Plan {
      if size.Positive() then Plan(if plan == "" then "custom" else plan, size)
      else if plan in PLANS then Plan(plan, PLANS[plan])
      else Plan(plan, ZERO)
    }
  }

  datatype Project = Project(budget: Amount, hasPurpose: bool)

  const RANK_OWNER := 40
  const RANK_ADMIN := 30
  const RANK_DEVELOPER := 20

  /** A user as the permission checks see it; rank is the membership in the project at hand. */
  datatype Actor = Actor(id: Id, platformAdmin: bool, rank: Option<int>) {
    /** Platform admins act as owners of every project. */
    function Rank(): Option<int> { if platformAdmin then Some(RANK_OWNER) else rank }

    function Member(minRank: int): Outcome {
      if Rank().None? then Fail(ErrNotFound)
      else if Rank().value < minRank then Fail(ErrForbidden)
      else Done
    }

    predicate CanApprove() { Rank().Some? && Rank().value >= RANK_ADMIN }
  }

  /** The only audit action whose content is read back. */
  const DESTROY_REQUEST := "workspace.destroy.request"

  /** about is the workspace named in the entry's meta data, if any. */
  datatype Entry = Entry(resource: Id, about: Option<Id>, action: string, fromStatus: Option<Status>) {
    predicate About(id: Id) { resource == id || about == Some(id) }
  }
}
