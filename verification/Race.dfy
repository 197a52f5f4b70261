/**
 Background provisioning against destruction. One worker per provisioned workspace and any number of destroy runs,
 split at every access to the store or the runtime and interleaved freely; everything else is one step per call.
 */
module Race {
  import opened Amounts
  import opened Models
  import opened Placement
  import opened Store
  import opened App
  import opened AppInv
  import opened AppSteps
  import opened Moves
  import C = Conservation
  import R = Review

  /** How the runtime's Launch, or what comes before it, ends. */
  datatype LaunchEnd = Launched | LaunchFailed | NoCredentials

  datatype Pc =
    | Load | ReleaseMissing | Launch | Recheck(launched: bool)
    | CommitFailed(latest: Workspace) | ReleaseFailed
    | Activate(latest: Workspace) | CommitRunning(latest: Workspace) | Log
    | DropInstance | DropAllocation | CleanUp | Finished

  datatype Worker = Worker(alloc: Id, pc: Pc)

  datatype Stage = MarkDestroying | DestroyInstance | ReleaseAlloc | MarkDestroyed | LogDestroy | Over

  /** One run of executeDestroy; w is the copy of the workspace that its caller has read. */
  datatype Destroyer = Destroyer(id: Id, w: Workspace, stage: Stage)

  datatype System = System(db: State, guests: map<Id, bool>, workers: map<Id, Worker>, destroyers: map<nat, Destroyer>) {
    function AsWorld(): World { World(db, guests) }

    function Goto(id: Id, pc: Pc): System
      requires id in workers
    {
      this.(workers := workers[id := workers[id].(pc := pc)])
    }

    function Advance(k: nat, stage: Stage): System
      requires k in destroyers
    {
      this.(destroyers := destroyers[k := destroyers[k].(stage := stage)])
    }
  }

  function NextWorker(x: System, id: Id, how: LaunchEnd, now: int): System
    requires id in x.workers
  {
    var me := x.workers[id];
    match me.pc
    case Load =>
      if id !in x.db.workspaces then x.Goto(id, ReleaseMissing)
      else if x.db.workspaces[id].status != Provisioning then x.Goto(id, Finished)
      else x.Goto(id, Launch)
    case ReleaseMissing => x.(db := x.db.Release(me.alloc).0).Goto(id, Finished)
    case Launch =>
      (match how
       case NoCredentials => x.Goto(id, Finished)
       case LaunchFailed => x.Goto(id, Recheck(false))
       case Launched => x.(guests := x.guests[id := true]).Goto(id, Recheck(true)))
    case Recheck(launched) =>
      if id !in x.db.workspaces || x.db.workspaces[id].status != Provisioning then x.Goto(id, DropInstance)
      else if launched then x.Goto(id, Activate(x.db.workspaces[id]))
      else x.Goto(id, CommitFailed(x.db.workspaces[id].(status := Failed, updatedAt := now)))
    case CommitFailed(latest) =>
      var (db, r) := x.db.UpdateWorkspaceIfStatus(id, latest, Provisioning);
      x.(db := db).Goto(id, AfterCommit(r, ReleaseFailed))
    case ReleaseFailed => x.(db := x.db.Release(me.alloc).0).Goto(id, Finished)
    case Activate(latest) =>
      var (db, r) := x.db.Activate(me.alloc);
      x.(db := db).Goto(id, if r == Done then CommitRunning(latest.(status := Running, updatedAt := now)) else DropInstance)
    case CommitRunning(latest) =>
      var (db, r) := x.db.UpdateWorkspaceIfStatus(id, latest, Provisioning);
      x.(db := db).Goto(id, AfterCommit(r, Log))
    case Log => x.(db := x.db.AddAudit(Entry(id, None, "workspace.create", None))).Goto(id, Finished)
    case DropInstance => x.(guests := x.guests - {id}).Goto(id, DropAllocation)
    case DropAllocation => x.(db := x.db.Release(me.alloc).0).Goto(id, Finished)
    case CleanUp => x.(guests := x.guests - {id}).Goto(id, Finished)
    case Finished => x
  }

  /** A lost compare-and-set still removes the instance. */
  function AfterCommit(r: Outcome, won: Pc): Pc {
    if r == Done then won else if r == Fail(ErrConflict) then CleanUp else Finished
  }

  function NextDestroyer(x: System, k: nat, now: int): System
    requires k in x.destroyers
  {
    var me := x.destroyers[k];
    match me.stage
    case MarkDestroying => x.(db := x.db.UpdateWorkspace(me.id, me.w.(status := Destroying, updatedAt := now)).0).Advance(k, DestroyInstance)
    case DestroyInstance => x.(guests := x.guests - {me.id}).Advance(k, ReleaseAlloc)
    case ReleaseAlloc => x.(db := if me.w.alloc != NIL then x.db.Release(me.w.alloc).0 else x.db).Advance(k, MarkDestroyed)
    case MarkDestroyed => x.(db := x.db.UpdateWorkspace(me.id, me.w.(status := Destroyed, updatedAt := now)).0).Advance(k, LogDestroy)
    case LogDestroy => x.(db := x.db.AddAudit(Entry(me.id, None, "workspace.destroy", None))).Advance(k, Over)
    case Over => x
  }

  /** Creating and approving; what ends in provisioning gets a worker. */
  ghost function Spawn(x: System, op: Op, now: int): System
    requires op.OpCreate? || op.OpApprove?
  {
    var db := Do(x.AsWorld(), op, now).db;
    var id := if op.OpCreate? then op.draw.ws else op.id;
    if id in db.workspaces && db.workspaces[id].alloc == op.draw.alloc
    then x.(db := db, workers := x.workers[id := Worker(op.draw.alloc, Load)])
    else x.(db := db)
  }

  datatype Label =
    | BySpawn(op: Op, now: int)
    | ByCall(op: Op, now: int)
    | ByLedger(step: C.Step)
    | ByWorker(id: Id, how: LaunchEnd, now: int)
    | ByDestroy(k: nat, id: Id)
    | ByDestroyer(k: nat, now: int)

  ghost function Next(x: System, l: Label): System {
    match l
    case BySpawn(op, now) => if op.OpCreate? || op.OpApprove? then Spawn(x, op, now) else x
    case ByCall(op, now) => var y := Do(x.AsWorld(), op, now); x.(db := y.db, guests := y.guests)
    case ByLedger(step) => x.(db := C.Next(x.db, step))
    case ByWorker(id, how, now) => if id in x.workers then NextWorker(x, id, how, now) else x
    case ByDestroy(k, id) =>
      if id in x.db.workspaces && k !in x.destroyers
      then x.(destroyers := x.destroyers[k := Destroyer(id, x.db.workspaces[id], MarkDestroying)]) else x
    case ByDestroyer(k, now) => if k in x.destroyers then NextDestroyer(x, k, now) else x
  }

  /** The worker, if there is one, has nothing left to do but to log. */
  predicate WorkerAtRest(x: System, id: Id) { id in x.workers ==> x.workers[id].pc.Finished? || x.workers[id].pc.Log? }

  /** The newest destroy request about the workspace was made while it was operational. */
  predicate AskedWhileOperational(db: State, id: Id) {
    Operational(R.Origin(db.audit, id))
  }

  /** Rejecting the review restores an operational status only if the workspace was operational before it. */
  predicate RejectIsHarmless(db: State, id: Id) { AskedWhileOperational(db, id) || RestoredStatus(db, id) == Failed }

  /** Calls that move statuses only. Stop and start, which write the status unconditionally, wait for the worker. */
  predicate QuietCall(x: System, op: Op) {
    match op
    case OpReject(_, _) => true
    case OpRequestDestroy(_, actor) => !actor.platformAdmin
    case OpDestroy(_, actor) => !actor.platformAdmin
    case OpApproveDestroyProject(_, _) => true
    case OpRejectDestroyProject(id, _) => RejectIsHarmless(x.db, id)
    case OpRejectDestroyPlatform(id, _) => RejectIsHarmless(x.db, id)
    case OpStop(id, _) => WorkerAtRest(x, id)
    case OpStart(id, _) => WorkerAtRest(x, id)
    case OpWake(_) => true
    case OpSuspendIdle(_, _) => true
    case OpHealth(_) => true
    case _ => false
  }

  /** An approval does not come between a destroy call's reading of the workspace and its first write. */
  ghost predicate NoStaleDestroyer(x: System, id: Id) {
    forall k :: k in x.destroyers && x.destroyers[k].id == id ==> x.destroyers[k].stage != MarkDestroying
  }

  ghost predicate Permitted(x: System, l: Label) {
    match l
    case BySpawn(op, _) =>
      && (op.OpCreate? || op.OpApprove?)
      && FreshDraw(x.db, op.draw)
      && (op.OpApprove? ==> NoStaleDestroyer(x, op.id))
    case ByCall(op, _) => QuietCall(x, op) || op.OpFailStuck? || op.OpReleaseOrphan?
    case ByLedger(step) =>
      && C.Legal(x.db, step)
      && (step.Reserve? || step.Expand? || step.Upsert? || step.DeleteNode?)
      && (step.Reserve? ==> step.a.id != NIL && forall id :: id in x.db.workspaces ==> x.db.workspaces[id].alloc != step.a.id)
    case _ => true
  }

  // ----- the invariant, workspace by workspace

  predicate IsActive(db: State, a: Id) { a in db.allocs && db.allocs[a].state == Active }

  ghost predicate AnyIn(x: System, id: Id, stages: set<Stage>) {
    exists k :: k in x.destroyers && x.destroyers[k].id == id && x.destroyers[k].stage in stages
  }

  const MARKED := {DestroyInstance, ReleaseAlloc, MarkDestroyed, LogDestroy, Over}
  const BUSY := {DestroyInstance, ReleaseAlloc, MarkDestroyed}
  const REAPING := {DestroyInstance}
  const FREED := {MarkDestroyed, LogDestroy, Over}

  /** All that matters about one workspace: its status, its allocation and instance, its review, worker and destroyers. */
  datatype Spot = Spot(st: Status, live: bool, active: bool, inst: bool, origin: Option<Status>, pc: Option<Pc>,
                       marked: bool, busy: bool, reaping: bool, freed: bool)

  ghost function At(x: System, id: Id): Spot
    requires id in x.db.workspaces
  {
    var w := x.db.workspaces[id];
    Spot(w.status, x.db.Live(w.alloc), IsActive(x.db, w.alloc), id in x.guests, R.Origin(x.db.audit, id),
         if id in x.workers then Some(x.workers[id].pc) else None,
         AnyIn(x, id, MARKED), AnyIn(x, id, BUSY), AnyIn(x, id, REAPING), AnyIn(x, id, FREED))
  }

  predicate Holding(pc: Option<Pc>) {
    pc.Some? && (pc.value == Recheck(true) || pc.value.Activate? || pc.value.CommitRunning? || pc.value.DropInstance? || pc.value.CleanUp?)
  }

  predicate Empty(pc: Option<Pc>) {
    pc.Some? && (pc.value.Load? || pc.value.Launch? || pc.value == Recheck(false) || pc.value.CommitFailed? || pc.value.ReleaseFailed?)
  }

  predicate Backing(pc: Option<Pc>) {
    pc.Some? && (pc.value.ReleaseFailed? || pc.value.DropInstance? || pc.value.DropAllocation? || pc.value.CleanUp?)
  }

  predicate AtWork(pc: Option<Pc>) { pc.Some? && !pc.value.Finished? && !pc.value.Log? }

  predicate Operational(origin: Option<Status>) { origin.Some? && origin.value.HealthActive() }

  predicate Safe(s: Spot) {
    && (s.active ==> s.live)
    && (s.st.HealthActive() ==> s.active && s.inst && !AtWork(s.pc))
    && (s.st.ReviewInFlight() && Operational(s.origin) ==> s.active && s.inst && !AtWork(s.pc))
    && (s.st.ReviewInFlight() && s.origin == Some(Failed) && s.live ==> s.pc == Some(ReleaseFailed))
    && (s.st == Provisioning ==> s.live && s.pc.Some? && !Backing(s.pc))
    && (s.st == Destroyed ==> !s.live)
    && (s.st == Failed && s.live ==> s.pc == Some(ReleaseFailed))
    && (s.st == Destroying ==> s.busy)
    && (s.st in {Requested, Rejected} ==> s.pc.None? && !s.live)
    && (s.inst ==> s.st.HealthActive() || (s.st.ReviewInFlight() && (s.origin.None? || Operational(s.origin))) || Holding(s.pc) || s.reaping)
    && (Empty(s.pc) ==> !s.inst)
    && (Holding(s.pc) && s.st == Provisioning ==> s.inst)
    && (s.pc.Some? && s.pc.value.CommitRunning? && s.st == Provisioning ==> s.active)
    && (s.pc.Some? ==> !s.pc.value.ReleaseMissing?)
    && (s.marked ==> s.st.Gone())
    && (s.freed ==> !s.live)
  }

  predicate CopyOk(pc: Pc, alloc: Id) {
    && (pc.Activate? ==> pc.latest.alloc == alloc)
    && (pc.CommitRunning? ==> pc.latest.alloc == alloc && pc.latest.status == Running)
    && (pc.CommitFailed? ==> pc.latest.alloc == alloc && pc.latest.status == Failed)
  }

  predicate WorkerOk(db: State, id: Id, w: Worker) {
    id in db.workspaces && w.alloc != NIL && w.alloc == db.workspaces[id].alloc && CopyOk(w.pc, w.alloc)
  }

  predicate DestroyerOk(db: State, d: Destroyer) { d.id in db.workspaces && d.w.alloc == db.workspaces[d.id].alloc }

  ghost predicate AllSafe(x: System) { forall id :: id in x.db.workspaces ==> Safe(At(x, id)) }

  ghost predicate Linked(x: System) {
    && NIL !in x.db.allocs
    && OneOwner(x.db.workspaces)
    && (forall id :: id in x.guests ==> id in x.db.workspaces)
    && (forall id :: id in x.db.workspaces && x.db.workspaces[id].status == Requested ==> x.db.workspaces[id].alloc == NIL)
    && (forall id :: id in x.workers ==> WorkerOk(x.db, id, x.workers[id]))
    && (forall k :: k in x.destroyers ==> DestroyerOk(x.db, x.destroyers[k]))
  }

  ghost predicate RaceInv(x: System) { C.Conserved(x.db) && Linked(x) && AllSafe(x) }

  // ----- steps that concern one workspace

  ghost predicate SameState(s: State, t: State, a: Id) { s.Live(a) == t.Live(a) && IsActive(s, a) == IsActive(t, a) }

  ghost predicate SameOrigin(s: State, t: State, id: Id) { R.Origin(t.audit, id) == R.Origin(s.audit, id) }

  ghost predicate SameDestroyers(x: System, y: System, j: Id) {
    forall stages :: AnyIn(x, j, stages) == AnyIn(y, j, stages)
  }

  /** Apart from id, its allocation, its worker and its destroyers everything that matters is as before. */
  ghost predicate Local(x: System, y: System, id: Id) {
    && id in x.db.workspaces && id in y.db.workspaces
    && y.db.workspaces == x.db.workspaces[id := y.db.workspaces[id]]
    && y.db.workspaces[id].alloc == x.db.workspaces[id].alloc
    && (y.db.workspaces[id].status == Requested ==> x.db.workspaces[id].status == Requested)
    && NIL !in y.db.allocs
    && (forall a :: a != x.db.workspaces[id].alloc ==> SameState(x.db, y.db, a))
    && (forall j :: j != id ==> (j in y.guests <==> j in x.guests))
    && (forall j :: j != id ==> SameOrigin(x.db, y.db, j))
    && (forall j :: j != id ==> (j in y.workers <==> j in x.workers))
    && (forall j :: j != id && j in x.workers ==> y.workers[j] == x.workers[j])
    && (forall j :: j != id ==> SameDestroyers(x, y, j))
    && (forall k :: k in y.destroyers && y.destroyers[k].id != id ==> k in x.destroyers && y.destroyers[k] == x.destroyers[k])
  }

  lemma OtherSpot(x: System, y: System, id: Id, j: Id)
    requires Linked(x) && Local(x, y, id) && j in x.db.workspaces && j != id
    ensures At(y, j) == At(x, j)
  {
    hide AnyIn, R.Origin, CopyOk;
    var a := x.db.workspaces[j].alloc;
    if a != NIL {
      assert SameState(x.db, y.db, a);
    }
    assert SameDestroyers(x, y, j) && SameOrigin(x.db, y.db, j);
  }

  lemma LocalKeepsLinks(x: System, y: System, id: Id)
    requires Linked(x) && Local(x, y, id)
    requires id in y.workers ==> WorkerOk(y.db, id, y.workers[id])
    requires forall k :: k in y.destroyers && y.destroyers[k].id == id ==> DestroyerOk(y.db, y.destroyers[k])
    ensures Linked(y)
  {
    hide SameDestroyers, SameState, SameOrigin, CopyOk;
    PutKeepsOwners(x.db.workspaces, id, y.db.workspaces[id]);
    hide OneOwner;
    forall j | j in y.workers ensures WorkerOk(y.db, j, y.workers[j]) {
      if j != id {
        assert WorkerOk(x.db, j, x.workers[j]);
      }
    }
    forall k | k in y.destroyers ensures DestroyerOk(y.db, y.destroyers[k]) {
      if y.destroyers[k].id != id {
        assert DestroyerOk(x.db, x.destroyers[k]);
      }
    }
  }

  lemma LocalKeepsInv(x: System, y: System, id: Id)
    requires RaceInv(x) && Local(x, y, id) && C.Conserved(y.db) && Safe(At(y, id))
    requires id in y.workers ==> WorkerOk(y.db, id, y.workers[id])
    requires forall k :: k in y.destroyers && y.destroyers[k].id == id ==> DestroyerOk(y.db, y.destroyers[k])
    ensures RaceInv(y)
  {
    LocalKeepsLinks(x, y, id);
    forall j | j in y.db.workspaces ensures Safe(At(y, j)) {
      if j != id {
        OtherSpot(x, y, id, j);
        assert Safe(At(x, j));
        hide At, Safe;
      }
    }
    hide C.Conserved, Linked, Safe, At;
  }
}
