/** What the users' calls accept, and what they leave behind. */
module Calls {
  import opened Amounts
  import opened Models
  import opened Placement
  import opened Store
  import opened App
  import opened AppInv
  import opened AppSteps
  import C = Conservation
  import Text

  // ----- who may, and how much

  predicate AtLeast(actor: Actor, rank: int) { actor.platformAdmin || (actor.rank.Some? && actor.rank.value >= rank) }

  predicate MayUse(s: State, actor: Actor, project: Id, rank: int) {
    AtLeast(actor, rank) && project in s.projects && s.projects[project].hasPurpose
  }

  lemma MemberExactly(actor: Actor, rank: int)
    requires rank <= 40
    ensures actor.Member(rank) == Done <==> AtLeast(actor, rank)
    ensures actor.CanApprove() <==> AtLeast(actor, 30)
  {}

  lemma ReadyExactly(s: State, actor: Actor, project: Id, rank: int)
    requires rank <= 40
    ensures Ready(s, actor, project, rank) == Done <==> MayUse(s, actor, project, rank)
    ensures Ready(s, actor, project, rank) in {Done, Fail(ErrNotFound), Fail(ErrForbidden), Fail(ErrPurposeRequired)}
  {
    MemberExactly(actor, rank);
  }

  /** Whose private workspaces somebody may touch. */
  predicate OpenTo(w: Workspace, actor: Actor) { !w.isPrivate || w.owner == actor.id || AtLeast(actor, 30) }

  lemma PrivateExactly(w: Workspace, actor: Actor)
    ensures MayTouch(w, actor) <==> OpenTo(w, actor)
  {}

  /** In no dimension that has a budget do the used and the extra amount together exceed it. */
  ghost predicate FitsBudget(s: State, project: Id, extra: Amount) {
    && project in s.projects
    && var budget, used := s.projects[project].budget, ProjectUsed(s, project);
       && (budget.cpu > 0 ==> used.cpu + extra.cpu <= budget.cpu)
       && (budget.mem > 0 ==> used.mem + extra.mem <= budget.mem)
       && (budget.disk > 0 ==> used.disk + extra.disk <= budget.disk)
  }

  lemma BudgetAcceptsExactly(s: State, project: Id, extra: Amount)
    ensures CheckBudget(s, project, extra) ==
            if project !in s.projects then Fail(ErrNotFound) else if FitsBudget(s, project, extra) then Done else Fail(ErrNoCapacity)
    ensures CheckBudget(s, project, extra) == Done <==> FitsBudget(s, project, extra)
  {
    hide ProjectUsed;
  }

  predicate Holds(s: State, a: Id) { a in s.allocs && s.allocs[a].state in {Reserved, Active} }

  /** What the project's workspaces with a live allocation report as their size. */
  ghost function ReportedSizes(s: State, project: Id): map<Id, Amount> {
    map id | id in s.workspaces ::
      if s.workspaces[id].project == project && Holds(s, s.workspaces[id].alloc) then s.workspaces[id].Spec().size else ZERO
  }

  lemma HeldIsReported(s: State, id: Id)
    requires Inv(s) && id in s.workspaces
    ensures Held(s, s.workspaces[id]) == if Holds(s, s.workspaces[id].alloc) then s.workspaces[id].Spec().size else ZERO
  {
    hide C.Conserved, OneOwner;
    assert WsOk(s, id, s.workspaces[id]);
  }

  /** The used amount that the budget is held against. */
  lemma UsedIsReportedSizes(s: State, project: Id)
    requires Inv(s)
    ensures ProjectUsed(s, project) == Sum(ReportedSizes(s, project))
  {
    hide Inv, Held, Holds, Workspace.Spec;
    forall id | id in s.workspaces ensures HeldMap(s, project)[id] == ReportedSizes(s, project)[id] {
      HeldIsReported(s, id);
    }
    assert HeldMap(s, project) == ReportedSizes(s, project);
  }

  // ----- sizes and architectures

  predicate Allowed(a: Amount) {
    100 <= a.cpu <= 32_000 && 67_108_864 <= a.mem <= 68_719_476_736 && 1_073_741_824 <= a.disk <= 536_870_912_000
  }

  /** A size of its own is taken as it is if it is allowed; otherwise the name decides. */
  lemma ResolvesExactly(name: string, a: Amount)
    ensures var r := ResolveSpec(name, a);
            if a.cpu > 0 || a.mem > 0 || a.disk > 0 then (r.Some? <==> Allowed(a)) && (r.Some? ==> r.value.size == a)
            else
              && (r.Some? <==> name in {"nano", "small", "2c2g", "medium", "large", "xlarge"})
              && (name == "nano" ==> r.value.size == Amount(500, 268_435_456, 5_368_709_120))
              && (name == "small" ==> r.value.size == Amount(1000, 536_870_912, 5_368_709_120))
              && (name == "2c2g" ==> r.value.size == Amount(2000, 2_147_483_648, 5_368_709_120))
              && (name == "medium" ==> r.value.size == Amount(2000, 1_073_741_824, 16_106_127_360))
              && (name == "large" ==> r.value.size == Amount(4000, 2_147_483_648, 21_474_836_480))
              && (name == "xlarge" ==> r.value.size == Amount(6000, 3_221_225_472, 32_212_254_720))
  {}

  /** The size the program works with: the workspace's own, or, where it has none, that of its plan. */
  lemma SpecExactly(w: Workspace)
    ensures w.size.cpu > 0 && w.size.mem > 0 && w.size.disk > 0 ==> w.Spec().size == w.size
    ensures !(w.size.cpu > 0 && w.size.mem > 0 && w.size.disk > 0) ==>
              var named := ResolveSpec(w.plan, Amount(0, 0, 0));
              w.Spec().size == if named.Some? then named.value.size else Amount(0, 0, 0)
  {}

  /** Which architecture a name means, whatever its case and the blanks around it; the empty one means any. */
  lemma ArchExactly(raw: string)
    ensures var arch, name := NormalizeArch(raw), Text.Trim(Text.Lower(raw));
            && (arch == "any" <==> name in {"", "any"})
            && (arch == "amd64" <==> name in {"amd64", "x86_64", "x64"})
            && (arch == "arm64" <==> name in {"arm64", "aarch64", "arm"})
            && (arch == "" <==> name !in {"", "any", "amd64", "x86_64", "x64", "arm64", "aarch64", "arm"})
            && NormalizeArch(name) == arch
  {
    Text.CanonIsIdempotent(raw);
    hide Text.Trim, Text.Lower;
  }

  // ----- creating

  predicate NameInUse(s: State, project: Id, name: string) {
    exists id :: id in s.workspaces && s.workspaces[id].project == project && s.workspaces[id].name == name
                 && s.workspaces[id].status != Destroyed
  }

  /** The workspace's table, allocation and node after a reservation of size on a node. */
  ghost predicate Placed(s: State, t: State, id: Id, project: Id, size: Amount, draw: Draw) {
    && id in t.workspaces && draw.place in s.nodes
    && (var w := t.workspaces[id];
        && t.workspaces == s.workspaces[id := w]
        && w.status == Provisioning && w.alloc == draw.alloc && w.node == draw.place && w.arch == s.nodes[draw.place].arch
        && w.project == project)
    && draw.alloc in t.allocs && t.allocs == s.allocs[draw.alloc := t.allocs[draw.alloc]]
    && (var a := t.allocs[draw.alloc];
        a.id == draw.alloc && a.project == project && a.node == draw.place && a.size == size && a.state == Reserved)
    && (var n := s.nodes[draw.place];
        t.nodes == s.nodes[draw.place := n.(used := Amount(n.used.cpu + size.cpu, n.used.mem + size.mem, n.used.disk + size.disk))])
    && t.byName == s.byName && t.projects == s.projects
  }

  lemma TakePlaces(s: State, id: Id, w: Workspace, project: Id, size: Amount, arch: string, draw: Draw)
    requires draw.place in s.nodes
    requires w.status == Provisioning && w.alloc == draw.alloc && w.node == draw.place && w.arch == s.nodes[draw.place].arch && w.project == project
    ensures var a := Allocation(draw.alloc, project, draw.place, size, arch, Reserved);
            Placed(s, s.Take(draw.place, a).PutWorkspace(id, w), id, project, size, draw)
  {}

  lemma TakeKeepsTables(s: State, node: Id, a: Allocation)
    requires node in s.nodes
    ensures var t := s.Take(node, a); t.workspaces == s.workspaces && t.nodes[node].arch == s.nodes[node].arch
  {}

  lemma ProvisionNewExactly(s: State, d: Draft, plan: Plan, arch: string, actor: Actor, draw: Draw, now: int)
    ensures var (t, r) := ProvisionNew(s, d, plan, arch, actor, draw, now);
            && (r == Done <==> Best(s.nodes, Query(arch, plan.size, false), draw.place)
                               && !NameInUse(s, d.project, WorkspaceName(d, plan)))
            && (r == Done ==> Placed(s, t, draw.ws, d.project, plan.size, draw)
                              && t.workspaces[draw.ws].name == WorkspaceName(d, plan) && t.workspaces[draw.ws].size == plan.size
                              && t.workspaces[draw.ws].owner == actor.id && t.workspaces[draw.ws].isPrivate == d.isPrivate)
  {
    hide State.Take, State.Release, Placed;
    if Best(s.nodes, Query(arch, plan.size, false), draw.place) {
      var a := Allocation(draw.alloc, d.project, draw.place, plan.size, arch, Reserved);
      TakeKeepsTables(s, draw.place, a);
      var w := NewWorkspace(d, plan, s.nodes[draw.place].arch, actor.id, draw.place, draw.alloc, Provisioning, now);
      TakePlaces(s, draw.ws, w, d.project, plan.size, arch, draw);
    }
  }

  /** What creating asks for. */
  ghost predicate MayCreate(s: State, d: Draft, size: Amount, name: string, actor: Actor, draw: Draw) {
    && MayUse(s, actor, d.project, 20)
    && NormalizeArch(d.arch) != ""
    && FitsBudget(s, d.project, size)
    && !NameInUse(s, d.project, name)
    && (AtLeast(actor, 30) ==> Preferred(s.nodes, Query(NormalizeArch(d.arch), size, false), draw.place))
  }

  /** The name as given, or made from the plan. */
  function NameFor(d: Draft, plan: Plan): string { if Text.Trim(d.name) != "" then Text.Trim(d.name) else "ws-" + plan.name }

  /**
   Creating succeeds exactly when everything it asks for is there. An approver gets a provisioning workspace with a
   reservation of the resolved size on a preferred node, everybody else a requested one that holds nothing.
   */
  lemma CreateExactly(s: State, guests: map<Id, bool>, d: Draft, actor: Actor, draw: Draw, now: int)
    ensures Do(World(s, guests), OpCreate(d, actor, draw), now) == World(CreateWorkspace(s, d, actor, draw, now).0, guests)
    ensures var (t, r) := CreateWorkspace(s, d, actor, draw, now);
            var plan := ResolveSpec(d.planName, d.size);
            && (r == Done <==> plan.Some? && MayCreate(s, d, plan.value.size, NameFor(d, plan.value), actor, draw))
            && (r == Done && AtLeast(actor, 30) ==> Placed(s, t, draw.ws, d.project, plan.value.size, draw))
            && (r == Done && !AtLeast(actor, 30) ==>
                  && draw.ws in t.workspaces && t.workspaces == s.workspaces[draw.ws := t.workspaces[draw.ws]]
                  && t.workspaces[draw.ws].status == Requested && t.workspaces[draw.ws].alloc == NIL
                  && t.workspaces[draw.ws].project == d.project
                  && t.nodes == s.nodes && t.allocs == s.allocs)
            && (r == Done ==> t.workspaces[draw.ws].name == NameFor(d, plan.value) && t.workspaces[draw.ws].size == plan.value.size
                              && t.workspaces[draw.ws].owner == actor.id && t.workspaces[draw.ws].isPrivate == d.isPrivate)
  {
    hide CheckBudget, Ready, NormalizeArch, ResolveSpec, ProvisionNew, FitsBudget, Best, Preferred, Placed, Text.Trim;
    ReadyExactly(s, actor, d.project, 20);
    MemberExactly(actor, 30);
    var plan := ResolveSpec(d.planName, d.size);
    if plan.Some? {
      BudgetAcceptsExactly(s, d.project, plan.value.size);
      BestIsPreferred(s.nodes, Query(NormalizeArch(d.arch), plan.value.size, false), draw.place);
      ProvisionNewExactly(s, d, plan.value, NormalizeArch(d.arch), actor, draw, now);
    }
  }

  // ----- approving

  ghost predicate MayApprove(s: State, id: Id, actor: Actor, draw: Draw) {
    && id in s.workspaces && s.workspaces[id].status == Requested
    && var w := s.workspaces[id];
       && MayUse(s, actor, w.project, 30)
       && w.Spec().size.cpu != 0 && FitsBudget(s, w.project, w.Spec().size)
       && Preferred(s.nodes, Query(if w.arch == "" then "any" else w.arch, w.Spec().size, false), draw.place)
  }

  /** An approval succeeds exactly for a requested workspace that fits; it then holds a reservation of its own size. */
  lemma ApproveExactly(s: State, guests: map<Id, bool>, id: Id, actor: Actor, draw: Draw, now: int)
    ensures Do(World(s, guests), OpApprove(id, actor, draw), now) == World(ApproveWorkspace(s, id, actor, draw, now).0, guests)
    ensures var (t, r) := ApproveWorkspace(s, id, actor, draw, now);
            && (r == Done <==> MayApprove(s, id, actor, draw))
            && (r == Done ==> Placed(s, t, id, s.workspaces[id].project, s.workspaces[id].Spec().size, draw)
                              && t.workspaces[id].size == s.workspaces[id].size && t.workspaces[id].name == s.workspaces[id].name
                              && t.audit == s.audit)
            && (r != Done ==> t == s)
  {
    hide CheckBudget, Ready, FitsBudget, Best, Preferred, Placed, Workspace.Spec, State.Take;
    if id in s.workspaces {
      var w := s.workspaces[id];
      ReadyExactly(s, actor, w.project, 30);
      BudgetAcceptsExactly(s, w.project, w.Spec().size);
      BestIsPreferred(s.nodes, Query(NormalArch(w.arch), w.Spec().size, false), draw.place);
      if draw.place in s.nodes {
        var a := Allocation(draw.alloc, w.project, draw.place, w.Spec().size, NormalArch(w.arch), Reserved);
        TakeKeepsTables(s, draw.place, a);
        TakeEffect(s, draw.place, a);
        var v := w.(arch := s.nodes[draw.place].arch, node := draw.place, alloc := draw.alloc, status := Provisioning, updatedAt := now);
        TakePlaces(s, id, v, w.project, w.Spec().size, NormalArch(w.arch), draw);
      }
      PreferredIsThere(s, Query(NormalArch(w.arch), w.Spec().size, false), draw.place);
    }
  }

  lemma PreferredIsThere(s: State, q: Query, id: Id)
    ensures Best(s.nodes, q, id) ==> id in s.nodes
  {}

  /** Rejecting a request needs a project admin. */
  lemma RejectExactly(s: State, guests: map<Id, bool>, id: Id, actor: Actor, now: int)
    ensures Do(World(s, guests), OpReject(id, actor), now) == World(RejectWorkspace(s, id, actor, now).0, guests)
    ensures var (t, r) := RejectWorkspace(s, id, actor, now);
            && (r == Done <==> id in s.workspaces && s.workspaces[id].status == Requested && AtLeast(actor, 30))
            && (r == Done ==> t == s.(workspaces := s.workspaces[id := s.workspaces[id].(status := Rejected, updatedAt := now)], audit := t.audit))
            && (r != Done ==> t == s)
  {
    MemberExactly(actor, 30);
  }
}
